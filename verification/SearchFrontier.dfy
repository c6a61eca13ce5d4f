/** The search frontier (neural_candidate_pages_v3.py): paths through the pinyin, work left over
    from scored parents, root seeds and deferred plans, and the buckets they can still reach. */
module SearchFrontier {
  import opened PinyinInput
  import opened PinyinMatcher
  import opened ScorePositions
  import opened SearchBatches
  import opened SearchLimits
  import opened Wrappers
  import R = RootSelection

  datatype Edge = Edge(text: string, tokenPath: seq<int>, syllables: seq<string>, matched: nat, predicted: nat)

  /** What was typed, and what it may spell: the index, and the entries that may follow spent keys. */
  datatype Typing = Typing(raw: string, compact: string, boundaries: set<nat>, entries: set<Entry>, free: seq<Entry>)

  /** A path; with options it stands inside the tokens of entries not yet spelled out. */
  datatype HanPath = HanPath(text: string, pinyin: seq<string>, tokenPath: seq<int>, score: real, predicted: nat, matched: nat,
                             options: seq<Edge>, pendingStart: nat)

  datatype Item =
    | Search(path: HanPath)
    | Resume(path: HanPath, tokens: seq<int>, values: Scores, edges: map<int, seq<Edge>>, positions: seq<nat>, cursor: nat)
    | RootSeeds(id: nat, records: seq<HanPath>, at: nat)
    | Deferred(least: nat, roots: seq<R.Root>)
    | LatinPath(latinText: string, latinTokens: seq<int>, latinScore: real)

  datatype PathKey =
    | SearchKey(tokenPath: seq<int>, matched: nat, pinyin: seq<string>, options: seq<(seq<int>, nat, nat)>)
    | ResumeKey(resumed: seq<int>, cursor: nat)
    | SeedsKey(id: nat, at: nat)
    | DeferredKey
    | LatinKey(latinTokens: seq<int>)

  function KeyOf(item: Item): PathKey {
    match item
    case Search(p) => SearchKey(p.tokenPath, p.matched, p.pinyin,
                                seq(|p.options|, i requires 0 <= i < |p.options| => (p.options[i].tokenPath, p.options[i].matched, p.options[i].predicted)))
    case Resume(p, _, _, _, _, cursor) => ResumeKey(p.tokenPath, cursor)
    case RootSeeds(id, _, at) => SeedsKey(id, at)
    case Deferred(_, _) => DeferredKey
    case LatinPath(_, tokens, _) => LatinKey(tokens)
  }

  // ---------------------------------------------------------------------------------
  // What a path spells.

  /** What may follow after so many letters, predicted syllables and tokens: while letters are left, an
      entry at its best match with them; any entry once the keys are spent. */
  ghost predicate Goes(typing: Typing, matched: nat, predicted: nat, start: nat, e: Edge) {
    if matched < |typing.compact| then exists m: Match :: GoesBy(typing, matched, predicted, start, m, e)
    else exists x :: x in typing.free && e == Edge(x.text, x.tokenPath, x.syllablePath, |typing.compact|, predicted + |x.syllablePath|)
  }

  ghost predicate GoesBy(typing: Typing, matched: nat, predicted: nat, start: nat, m: Match, e: Edge) {
    && m.entry in typing.entries && IsBest(Query(typing.compact, matched, typing.boundaries, false, true), m.entry, m)
    && m.nextPosition > matched && m.entry.tokenPath != [] && start + |m.entry.tokenPath| <= MAX_MODEL_TOKENS && |m.entry.text| <= MAX_HAN_CHARACTERS
    && e == Edge(m.entry.text, m.entry.tokenPath, m.entry.syllablePath, m.nextPosition,
                 predicted + if m.nextPosition == |typing.compact| then m.completionSyllables else 0)
  }

  function TextOf(chain: seq<Edge>): string {
    if chain == [] then "" else TextOf(chain[..|chain| - 1]) + chain[|chain| - 1].text
  }

  function SyllablesOf(chain: seq<Edge>): seq<string> {
    if chain == [] then [] else SyllablesOf(chain[..|chain| - 1]) + chain[|chain| - 1].syllables
  }

  function TokensOf(chain: seq<Edge>): seq<int> {
    if chain == [] then [] else TokensOf(chain[..|chain| - 1]) + chain[|chain| - 1].tokenPath
  }

  function MatchedBy(chain: seq<Edge>): nat {
    if chain == [] then 0 else chain[|chain| - 1].matched
  }

  function PredictedBy(chain: seq<Edge>): nat {
    if chain == [] then 0 else chain[|chain| - 1].predicted
  }

  /** Entries that follow each other from the start of the keys on. */
  ghost predicate ChainOk(typing: Typing, chain: seq<Edge>) {
    chain == []
    || (var front := chain[..|chain| - 1];
        ChainOk(typing, front) && Goes(typing, MatchedBy(front), PredictedBy(front), |TokensOf(front)|, chain[|chain| - 1]))
  }

  /** The path spells the chain; with options, and then the first tokens that all its options share. */
  ghost predicate Spelt(typing: Typing, chain: seq<Edge>, p: HanPath) {
    && p.text == TextOf(chain) && p.pinyin == SyllablesOf(chain) && p.matched == MatchedBy(chain) && p.predicted == PredictedBy(chain)
    && if p.options == [] then chain != [] && p.tokenPath == TokensOf(chain)
       else p.pendingStart == |TokensOf(chain)| && TokensOf(chain) <= p.tokenPath && |p.tokenPath| > p.pendingStart
            && forall o :: o in p.options ==> Opens(typing, p, o)
  }

  /** An option goes on from where the path entered it, and its tokens begin with those spelled out since. */
  ghost predicate Opens(typing: Typing, p: HanPath, o: Edge) {
    && p.pendingStart <= |p.tokenPath| && Goes(typing, p.matched, p.predicted, p.pendingStart, o)
    && p.tokenPath[p.pendingStart..] < o.tokenPath
  }

  ghost predicate Spells(typing: Typing, p: HanPath) {
    exists chain :: ChainOk(typing, chain) && Spelt(typing, chain, p)
  }

  /** An edge a path may take: one of its options, or what may follow it. */
  ghost predicate EdgeOf(typing: Typing, p: HanPath, e: Edge) {
    if p.options != [] then e in p.options else EdgeOk(typing, p, e) && Goes(typing, p.matched, p.predicted, |p.tokenPath|, e)
  }

  predicate EdgeOk(typing: Typing, p: HanPath, e: Edge) {
    e.predicted >= p.predicted && HanOnly(e.text) && e.matched <= |typing.compact|
  }

  /** The token is the next one of the edge. */
  predicate Under(p: HanPath, token: int, e: Edge) {
    0 <= Inside(p) < |e.tokenPath| && e.tokenPath[Inside(p)] == token
  }

  lemma OneEdgeChain(typing: Typing, e: Edge)
    requires Goes(typing, 0, 0, 0, e)
    ensures ChainOk(typing, [e]) && TextOf([e]) == e.text && SyllablesOf([e]) == e.syllables && TokensOf([e]) == e.tokenPath
    ensures MatchedBy([e]) == e.matched && PredictedBy([e]) == e.predicted
  {
    hide Goes;
    assert [e][..|[e]| - 1] == [] && "" + e.text == e.text && [] + e.syllables == e.syllables && [] + e.tokenPath == e.tokenPath;
    assert ChainOk(typing, []);
  }

  /** Taking the last token of an edge spells one entry more. */
  lemma ExtendedSpells(typing: Typing, p: HanPath, token: int, score: real, e: Edge)
    requires Spells(typing, p) && EdgeOf(typing, p, e) && Under(p, token, e) && Finishes(p, e)
    ensures Spells(typing, Extended(p, token, score, e))
  {
    hide Goes, ChainOk, TextOf, SyllablesOf, TokensOf, MatchedBy, PredictedBy;
    var chain :| ChainOk(typing, chain) && Spelt(typing, chain, p);
    var more, q := chain + [e], Extended(p, token, score, e);
    OneEdgeMore(chain, e);
    if p.options == [] {
      assert e.tokenPath == [token];
    } else {
      assert Opens(typing, p, e);
      assert e.tokenPath == p.tokenPath[p.pendingStart..] + [token];
      assert p.tokenPath == TokensOf(chain) + p.tokenPath[p.pendingStart..];
      assert q.tokenPath == TokensOf(chain) + e.tokenPath;
    }
    LongerChain(typing, chain, e);
    assert Spelt(typing, more, q);
  }

  lemma OneEdgeMore(chain: seq<Edge>, e: Edge)
    ensures var more := chain + [e];
            && TextOf(more) == TextOf(chain) + e.text && SyllablesOf(more) == SyllablesOf(chain) + e.syllables
            && TokensOf(more) == TokensOf(chain) + e.tokenPath && MatchedBy(more) == e.matched && PredictedBy(more) == e.predicted
  {
    assert (chain + [e])[..|chain|] == chain;
  }

  lemma LongerChain(typing: Typing, chain: seq<Edge>, e: Edge)
    requires ChainOk(typing, chain) && Goes(typing, MatchedBy(chain), PredictedBy(chain), |TokensOf(chain)|, e)
    ensures ChainOk(typing, chain + [e])
  {
    hide Goes;
    assert (chain + [e])[..|chain|] == chain;
  }

  /** Taking another token of unfinished entries leaves the chain as it is. */
  lemma FragmentSpells(typing: Typing, p: HanPath, token: int, score: real, options: seq<Edge>)
    requires Spells(typing, p) && options != []
    requires forall o :: o in options ==> EdgeOf(typing, p, o) && Under(p, token, o) && StaysInside(p, o)
    ensures Spells(typing, Fragment(p, token, score, options))
  {
    hide Goes;
    var chain :| ChainOk(typing, chain) && Spelt(typing, chain, p);
    var q := Fragment(p, token, score, options);
    forall o | o in options ensures Opens(typing, q, o) {
      if p.options != [] { assert Opens(typing, p, o); }
      assert q.tokenPath[q.pendingStart..] == (if p.options == [] then [] else p.tokenPath[p.pendingStart..]) + [token];
    }
    assert Spelt(typing, chain, q);
  }

  /** How many tokens of its options' entries a path has spelled out. */
  function Inside(p: HanPath): int {
    if p.options != [] then |p.tokenPath| - p.pendingStart else 0
  }

  /** Another token leaves the edge's entry unfinished, or finishes it. */
  predicate StaysInside(p: HanPath, e: Edge) {
    |p.tokenPath| < MAX_MODEL_TOKENS && Inside(p) + 1 < |e.tokenPath|
  }

  predicate Finishes(p: HanPath, e: Edge) {
    |p.tokenPath| < MAX_MODEL_TOKENS && Inside(p) + 1 >= |e.tokenPath| && |p.text| + |e.text| <= MAX_HAN_CHARACTERS
  }

  function Extended(p: HanPath, token: int, score: real, e: Edge): HanPath {
    HanPath(p.text + e.text, p.pinyin + e.syllables, p.tokenPath + [token], p.score + score, e.predicted, e.matched, [], 0)
  }

  /** The path inside unfinished entries: the text so far, one more token. */
  function Fragment(p: HanPath, token: int, score: real, options: seq<Edge>): HanPath {
    HanPath(p.text, p.pinyin, p.tokenPath + [token], p.score + score, p.predicted, p.matched,
            options, if p.options != [] then p.pendingStart else |p.tokenPath|)
  }

  predicate GoesOn(p: HanPath) {
    |p.tokenPath| < MAX_MODEL_TOKENS && |p.text| < MAX_HAN_CHARACTERS
  }

  /** An edge listed under a token. */
  predicate Lists(grouped: map<int, seq<Edge>>, token: int, e: Edge) {
    token in grouped && e in grouped[token]
  }

  ghost predicate PathOk(typing: Typing, p: HanPath) {
    HanOnly(p.text) && (forall o :: o in p.options ==> EdgeOk(typing, p, o)) && Spells(typing, p)
  }

  /** Consumed keys reach behind a letter and the apostrophes that follow it, and to the end exactly
      when the input is complete. */
  predicate ConsumedOk(typing: Typing, consumed: nat, completes: bool) {
    && consumed <= |typing.raw| && (completes <==> consumed == |typing.raw|)
    && (consumed < |typing.raw| ==> typing.raw[consumed] != '\'')
  }

  ghost predicate ResumeOk(typing: Typing, item: Item)
    requires item.Resume?
  {
    && item.cursor <= |item.positions| && |item.values| == |item.tokens|
    && (forall q :: q in item.positions ==> IsFinite(item.values, q) && item.tokens[q] in item.edges)
    && (forall t :: t in item.edges ==> forall e :: e in item.edges[t] ==> EdgeOf(typing, item.path, e) && Under(item.path, t, e))
  }

  ghost predicate ItemOk(typing: Typing, item: Item) {
    match item
    case Search(p) => PathOk(typing, p)
    case Resume(p, _, _, _, _, _) => PathOk(typing, p) && ResumeOk(typing, item)
    case RootSeeds(_, records, at) => at <= |records| && forall r :: r in records ==> PathOk(typing, r)
    case Deferred(least, roots) => R.Records(roots) && forall r :: r in roots ==> RootOk(typing, r, least)
    case LatinPath(_, _, _) => true
  }

  /** A root is what the keys may begin with. */
  ghost predicate RootOk(typing: Typing, r: R.Root, least: nat) {
    && HanOnly(r.entry.text) && ConsumedOk(typing, r.entry.consumed, r.entry.completes)
    && r.entry.tokenPath != [] && r.entry.tokenId == r.entry.tokenPath[0] && (r.entry.completes <==> RootEdge(typing, r).matched == |typing.compact|)
    && RootEdge(typing, r).matched <= |typing.compact| && Goes(typing, 0, 0, 0, RootEdge(typing, r))
    && (r.score.Some? ==> r.entry.predicted >= least)
  }

  function RootEdge(typing: Typing, r: R.Root): Edge {
    var consumed := if r.entry.consumed <= |typing.raw| then r.entry.consumed else |typing.raw|;
    Edge(r.entry.text, r.entry.tokenPath, Syllables(r.entry.pinyin), |Letters(typing.raw[..consumed])|, r.entry.predicted)
  }

  lemma ExtendedPathOk(typing: Typing, p: HanPath, token: int, score: real, e: Edge, b: nat)
    requires PathOk(typing, p) && PathAtLeast(p, b) && EdgeOf(typing, p, e) && Under(p, token, e) && Finishes(p, e)
    ensures PathOk(typing, Extended(p, token, score, e)) && PathAtLeast(Extended(p, token, score, e), b)
  {
    hide Spells, Goes, Under, Finishes;
    ExtendedSpells(typing, p, token, score, e);
  }

  lemma FragmentPathOk(typing: Typing, p: HanPath, token: int, score: real, options: seq<Edge>, b: nat)
    requires PathOk(typing, p) && PathAtLeast(p, b) && options != []
    requires forall o :: o in options ==> EdgeOf(typing, p, o) && Under(p, token, o) && StaysInside(p, o)
    ensures PathOk(typing, Fragment(p, token, score, options)) && PathAtLeast(Fragment(p, token, score, options), b)
  {
    hide Spells, Goes, Under, StaysInside;
    FragmentSpells(typing, p, token, score, options);
    forall o | o in options ensures o.predicted >= b && EdgeOk(typing, p, o) { EdgeAtLeast(typing, p, o, b); }
  }

  lemma EdgeAtLeast(typing: Typing, p: HanPath, e: Edge, b: nat)
    requires PathOk(typing, p) && EdgeOf(typing, p, e) && PathAtLeast(p, b)
    ensures e.predicted >= b && EdgeOk(typing, p, e)
  {}

  function Syllables(pinyin: string): seq<string> {
    SplitAt(pinyin, "")
  }

  /** The parts between apostrophes that are not empty. */
  function SplitAt(rest: string, part: string): seq<string>
    decreases |rest|
  {
    if rest == "" then (if part == "" then [] else [part])
    else if rest[0] == '\'' then (if part == "" then [] else [part]) + SplitAt(rest[1..], "")
    else SplitAt(rest[1..], part + [rest[0]])
  }

  // ---------------------------------------------------------------------------------
  // Buckets.

  /** Nothing below this path lies in a bucket shorter than b. */
  predicate PathAtLeast(p: HanPath, b: nat) {
    if p.options != [] then forall o :: o in p.options ==> o.predicted >= b else p.predicted >= b
  }

  predicate AtLeast(item: Item, b: nat) {
    match item
    case Search(p) => PathAtLeast(p, b)
    case Resume(p, _, _, _, _, _) => PathAtLeast(p, b)
    case RootSeeds(_, records, at) => forall i :: at <= i < |records| ==> PathAtLeast(records[i], b)
    case Deferred(least, _) => least >= b
    case LatinPath(_, _, _) => true
  }

  predicate IsHan(item: Item) {
    !item.LatinPath?
  }

  function Bucket(item: Item): nat {
    match item
    case Search(p) => p.predicted + if p.options != [] then 0 else 1
    case Resume(p, _, _, _, _, _) => p.predicted + if p.options != [] then 0 else 1
    case RootSeeds(_, _, _) => 1
    case Deferred(least, _) => least + 1
    case LatinPath(_, _, _) => 0
  }

  /** An item the search may still expand into Han candidates. */
  predicate Expandable(x: Item, expanded: set<PathKey>, hasRoot: bool) {
    IsHan(x) && (x.Deferred? ==> hasRoot) && KeyOf(x) !in expanded
  }

  /** The least bucket an unexpanded item could still reach. */
  function MinimumFuture(frontier: seq<Item>, expanded: set<PathKey>, hasRoot: bool): (r: Option<nat>)
    ensures forall x :: x in frontier && Expandable(x, expanded, hasRoot) ==> r.Some? && r.value <= Bucket(x)
    ensures r.Some? ==> exists x :: x in frontier && Expandable(x, expanded, hasRoot) && Bucket(x) == r.value
  {
    if frontier == [] then None
    else
      var rest := MinimumFuture(frontier[1..], expanded, hasRoot);
      var x := frontier[0];
      if Expandable(x, expanded, hasRoot) && (rest.None? || Bucket(x) < rest.value) then Some(Bucket(x)) else rest
  }

  /** A bucket below the least future one is below everything the item can produce. */
  lemma BelowBucket(typing: Typing, item: Item, b: nat)
    requires ItemOk(typing, item) && b < Bucket(item)
    ensures AtLeast(item, b)
  {
    if item.RootSeeds? {
      forall i | item.at <= i < |item.records| ensures PathAtLeast(item.records[i], b) {
        assert item.records[i] in item.records;
      }
    }
  }

  /** For a path of finished entries, and for a plan, the bucket is the least that is not known to be
      below everything: freezing can be no bolder. */
  lemma BucketIsTight(item: Item, b: nat)
    requires item.Deferred? || ((item.Search? || item.Resume?) && item.path.options == [])
    ensures AtLeast(item, b) <==> b < Bucket(item)
  {}

  lemma AtLeastZero(x: Item, b: nat)
    requires x.LatinPath? || b == 0
    ensures AtLeast(x, b)
  {}

  /** The whole frontier is in order for the longest bucket already frozen, and unexpanded. */
  ghost predicate FrontierOk(typing: Typing, frontier: seq<Item>, expanded: set<PathKey>, reached: nat) {
    forall x :: x in frontier ==> ItemOk(typing, x) && KeyOf(x) !in expanded && AtLeast(x, reached)
  }

  ghost predicate KeysDiffer(frontier: seq<Item>) {
    forall i, j :: 0 <= i < j < |frontier| ==> KeyOf(frontier[i]) != KeyOf(frontier[j])
  }

  /** What expanding a Han path appends. */
  ghost predicate Grown(typing: Typing, before: seq<Item>, after: seq<Item>, reached: nat) {
    forall x :: x in after ==> x in before || (ItemOk(typing, x) && AtLeast(x, reached) && (x.Search? || x.Resume?))
  }

  /** The keys of some items. */
  function KeysOf(items: seq<Item>): set<PathKey> {
    set x | x in items :: KeyOf(x)
  }

  ghost predicate NoRemainder(frontier: seq<Item>) {
    forall x :: x in frontier ==> !x.Resume?
  }

  /** At most one scored parent is worked off at a time, and its first slice has been done. */
  ghost predicate OneRemainder(frontier: seq<Item>) {
    && (forall x :: x in frontier && x.Resume? ==> x.cursor > 0)
    && (forall i, j :: 0 <= i < j < |frontier| ==> !(frontier[i].Resume? && frontier[j].Resume?))
  }

  ghost predicate LoneRemainder(frontier: seq<Item>) {
    forall x, y :: x in frontier && y in frontier && x.Resume? && y.Resume? ==> x == y && x.cursor > 0
  }

  lemma OneIsLone(frontier: seq<Item>)
    requires OneRemainder(frontier)
    ensures LoneRemainder(frontier)
  {
    forall x, y | x in frontier && y in frontier && x.Resume? && y.Resume? ensures x == y && x.cursor > 0 {
      SameRemainder(frontier, x, y);
    }
  }

  /** A remainder is never marked as expanded. */
  ghost predicate NoneExpanded(expanded: set<PathKey>) {
    forall k :: k in expanded ==> !k.ResumeKey?
  }

  lemma SameRemainder(frontier: seq<Item>, x: Item, y: Item)
    requires OneRemainder(frontier) && x in frontier && y in frontier && x.Resume? && y.Resume?
    ensures x == y
  {
    var i :| 0 <= i < |frontier| && frontier[i] == x;
    var j :| 0 <= j < |frontier| && frontier[j] == y;
  }

  /** One remainder under distinct keys stands at one place. */
  lemma RemainderOnce(frontier: seq<Item>)
    requires KeysDiffer(frontier) && LoneRemainder(frontier)
    ensures OneRemainder(frontier)
  {
    hide KeyOf;
    forall i, j | 0 <= i < j < |frontier| ensures !(frontier[i].Resume? && frontier[j].Resume?) {
      assert frontier[i] in frontier && frontier[j] in frontier;
    }
  }

  /** Behind the remainder there is no other. */
  lemma WithoutRemainder(frontier: seq<Item>, n: nat, rest: seq<Item>)
    requires n < |frontier| && frontier[n].Resume? && OneRemainder(frontier) && rest == frontier[..n] + frontier[n + 1..]
    ensures NoRemainder(rest)
  {
    forall x | x in rest ensures !x.Resume? {
      var i :| 0 <= i < |rest| && rest[i] == x;
      assert x == frontier[if i < n then i else i + 1];
    }
  }

  // ---------------------------------------------------------------------------------
  // Order.

  function ByItemRank(rank: Item -> int): (Item, Item) -> bool {
    (a, b) => rank(a) <= rank(b)
  }

  ghost predicate Ranked(rank: Item -> int, s: seq<Item>) {
    forall i, j :: 0 <= i < j < |s| ==> rank(s[i]) <= rank(s[j])
  }

  /** x stands no later than everything from the n-th item on. */
  ghost predicate Below(rank: Item -> int, x: Item, s: seq<Item>, n: nat) {
    forall j :: n <= j < |s| ==> rank(x) <= rank(s[j])
  }

  lemma NothingRanked(rank: Item -> int)
    ensures Ranked(rank, [])
  {}

  lemma RankedAppend(rank: Item -> int, sorted: seq<Item>, n: nat, retained: seq<Item>)
    requires Ranked(rank, sorted) && n < |sorted| && Ranked(rank, retained) && forall x :: x in retained ==> Below(rank, x, sorted, n)
    ensures Ranked(rank, retained + [sorted[n]])
    ensures forall x :: x in retained + [sorted[n]] ==> Below(rank, x, sorted, n + 1)
    ensures forall x :: x in retained ==> Below(rank, x, sorted, n + 1)
  {
    forall i | 0 <= i < |retained| ensures rank(retained[i]) <= rank(sorted[n]) {
      assert Below(rank, retained[i], sorted, n);
    }
  }

  /** The key of x is kept, under an item that ranks no later. */
  ghost predicate BestKept(rank: Item -> int, retained: seq<Item>, x: Item) {
    exists y :: y in retained && KeyOf(y) == KeyOf(x) && rank(y) <= rank(x)
  }

  lemma StillKept(rank: Item -> int, retained: seq<Item>, more: seq<Item>, x: Item)
    requires BestKept(rank, retained, x) && forall y :: y in retained ==> y in more
    ensures BestKept(rank, more, x)
  {
    hide KeyOf;
  }

  lemma Itself(rank: Item -> int, retained: seq<Item>, x: Item)
    requires x in retained
    ensures BestKept(rank, retained, x)
  {}

  lemma RepeatIsKept(rank: Item -> int, sorted: seq<Item>, n: nat, retained: seq<Item>)
    requires n < |sorted| && forall y :: y in retained ==> Below(rank, y, sorted, n)
    requires exists y :: y in retained && KeyOf(y) == KeyOf(sorted[n])
    ensures BestKept(rank, retained, sorted[n])
  {
    hide KeyOf;
    var y :| y in retained && KeyOf(y) == KeyOf(sorted[n]);
    assert Below(rank, y, sorted, n);
  }

  /** Paths not expanded yet, the first of each key, in the order given. */
  method Retained(sorted: seq<Item>, expanded: set<PathKey>, rank: Item -> int) returns (retained: seq<Item>)
    requires Ranked(rank, sorted)
    ensures forall x :: x in retained ==> x in sorted && KeyOf(x) !in expanded
    ensures forall x :: x in sorted && KeyOf(x) !in expanded ==> BestKept(rank, retained, x)
    ensures KeysDiffer(retained) && Ranked(rank, retained)
  {
    hide KeyOf, Ranked, Below, BestKept;
    retained := [];
    NothingRanked(rank);
    var keys: set<PathKey> := {};
    for n := 0 to |sorted|
      invariant forall x :: x in retained ==> x in sorted && KeyOf(x) !in expanded && KeyOf(x) in keys
      invariant forall k :: k in keys ==> exists y :: y in retained && KeyOf(y) == k
      invariant forall i :: 0 <= i < n && KeyOf(sorted[i]) !in expanded ==> BestKept(rank, retained, sorted[i])
      invariant forall i, j :: 0 <= i < j < |retained| ==> KeyOf(retained[i]) != KeyOf(retained[j])
      invariant Ranked(rank, retained) && forall x :: x in retained ==> Below(rank, x, sorted, n)
    {
      var x := sorted[n];
      RankedAppend(rank, sorted, n, retained);
      assert forall i :: 0 <= i < |retained| ==> retained[i] in retained;
      ghost var before := retained;
      if KeyOf(x) !in expanded && KeyOf(x) !in keys {
        retained := retained + [x];
        keys := keys + {KeyOf(x)};
        assert x in retained && forall y :: y in before ==> y in retained;
        assert BestKept(rank, retained, x) by { Itself(rank, retained, x); }
      } else if KeyOf(x) !in expanded {
        RepeatIsKept(rank, sorted, n, retained);
      }
      forall i | 0 <= i < n && KeyOf(sorted[i]) !in expanded ensures BestKept(rank, retained, sorted[i]) {
        StillKept(rank, before, retained, sorted[i]);
      }
    }
  }

  lemma KeptFor(rank: Item -> int, retained: seq<Item>, x: Item) returns (y: Item)
    requires BestKept(rank, retained, x)
    ensures y in retained && KeyOf(y) == KeyOf(x) && rank(y) <= rank(x)
  {
    hide KeyOf;
    y :| y in retained && KeyOf(y) == KeyOf(x) && rank(y) <= rank(x);
  }

  function NotDeferred(): Item -> bool {
    (x: Item) => !x.Deferred?
  }
}
