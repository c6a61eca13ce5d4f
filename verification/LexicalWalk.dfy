/** The lexical completion walk (neural_candidate_pages_v3.py): a best-first worklist over
    the matcher's edges with deferred roots, lazily materialised siblings, re-queued stale
    items and a memo of visited states, proved to enumerate exactly the whole-input paths. */
module LexicalWalk {
  import opened PinyinInput
  import opened PinyinMatcher
  import opened SearchBatches
  import opened SearchLimits
  import opened Wrappers

  // ---------------------------------------------------------------------------------
  // The problem and its legal paths, independently of any search.

  /** Everything one walk reads. A score of None is one that is not finite. */
  datatype Problem = Problem(
    raw: string, compact: string, boundaries: set<nat>, entries: set<Entry>, continuationTokens: set<int>,
    baseline: seq<Option<real>>, contextual: map<int, Option<real>>, exactOnly: bool)

  datatype Path = Path(text: string, pinyinPath: seq<string>, tokenPath: seq<int>, score: real, predicted: nat, matched: nat)

  /** The memo key of a path. */
  datatype Key = Key(tokenPath: seq<int>, matched: nat, predicted: nat)

  function KeyOf(p: Path): Key {
    Key(p.tokenPath, p.matched, p.predicted)
  }

  ghost predicate ValidProblem(w: Problem) {
    Accepted(w.raw) && w.compact == Letters(w.raw) && w.compact != "" && w.boundaries == Boundaries(w.raw)
  }

  function QueryAt(w: Problem, position: nat): Query {
    Query(w.compact, position, w.boundaries, w.exactOnly, true)
  }

  predicate InVocabulary(w: Problem, tokens: seq<int>) {
    forall t :: t in tokens ==> 0 <= t < |w.baseline|
  }

  /** Sum of the empty-context scores; None when a token is unknown or a score not finite. */
  function TokenScore(w: Problem, tokens: seq<int>): Option<real> {
    if tokens == [] then Some(0.0)
    else if !(0 <= tokens[0] < |w.baseline|) || w.baseline[tokens[0]].None? then None
    else match TokenScore(w, tokens[1..])
      case None => None
      case Some(rest) => Some(w.baseline[tokens[0]].value + rest)
  }

  /** A root keeps the editor-context score of its first token when there is one. */
  function RootScore(w: Problem, tokens: seq<int>): Option<real>
    requires tokens != []
  {
    if !(0 <= tokens[0] < |w.baseline|) || !InVocabulary(w, tokens) then None
    else
      var first := if tokens[0] in w.contextual then w.contextual[tokens[0]] else w.baseline[tokens[0]];
      match (first, TokenScore(w, tokens[1..]))
      case (Some(a), Some(b)) => Some(a + b)
      case _ => None
  }

  function Extra(w: Problem, m: Match): nat {
    if m.nextPosition == |w.compact| then m.completionSyllables else 0
  }

  predicate RootShape(w: Problem, m: Match) {
    && m.nextPosition > 0 && m.entry.tokenPath != []
    && |m.entry.tokenPath| <= MAX_MODEL_TOKENS && |m.entry.text| <= MAX_HAN_CHARACTERS
    && RootScore(w, m.entry.tokenPath).Some?
  }

  predicate EdgeShape(w: Problem, position: nat, m: Match) {
    && m.nextPosition > position && m.entry.tokenPath != [] && |m.entry.tokenPath| <= MAX_MODEL_TOKENS
    && !(|m.entry.tokenPath| == 1 && (m.entry.coverage || m.entry.tokenPath[0] !in w.continuationTokens))
    && |m.entry.text| <= MAX_HAN_CHARACTERS
    && TokenScore(w, m.entry.tokenPath).Some?
  }

  /** A match the plan accepts as a root, and one the walk accepts as an edge. */
  ghost predicate RootAt(w: Problem, m: Match) {
    m.entry in w.entries && IsBest(QueryAt(w, 0), m.entry, m) && RootShape(w, m)
  }

  ghost predicate EdgeAt(w: Problem, position: nat, m: Match) {
    && position < |w.compact| && m.entry in w.entries
    && IsBest(QueryAt(w, position), m.entry, m) && EdgeShape(w, position, m)
  }

  function RootPath(w: Problem, m: Match): Path
    requires RootShape(w, m)
  {
    Path(m.entry.text, m.entry.syllablePath, m.entry.tokenPath, RootScore(w, m.entry.tokenPath).value, Extra(w, m), m.nextPosition)
  }

  function Child(w: Problem, p: Path, m: Match): Path
    requires TokenScore(w, m.entry.tokenPath).Some?
  {
    Path(p.text + m.entry.text, p.pinyinPath + m.entry.syllablePath, p.tokenPath + m.entry.tokenPath,
         p.score + TokenScore(w, m.entry.tokenPath).value, p.predicted + Extra(w, m), m.nextPosition)
  }

  predicate Fits(p: Path) {
    |p.tokenPath| <= MAX_MODEL_TOKENS && |p.text| <= MAX_HAN_CHARACTERS
  }

  ghost predicate Expands(w: Problem, p: Path, m: Match) {
    EdgeAt(w, p.matched, m) && Fits(Child(w, p, m))
  }

  /** A legal path: a root, then edges that each continue where the last one stopped. */
  ghost predicate LegalChain(w: Problem, chain: seq<Match>)
    decreases |chain|, 0
  {
    chain != [] &&
    if |chain| == 1 then RootAt(w, chain[0])
    else LegalChain(w, chain[..|chain| - 1]) && Expands(w, PathOf(w, chain[..|chain| - 1]), chain[|chain| - 1])
  }

  ghost function PathOf(w: Problem, chain: seq<Match>): Path
    requires LegalChain(w, chain)
    decreases |chain|, 1
  {
    if |chain| == 1 then RootPath(w, chain[0])
    else Child(w, PathOf(w, chain[..|chain| - 1]), chain[|chain| - 1])
  }

  ghost predicate LegalPath(w: Problem, p: Path) {
    exists chain :: LegalChain(w, chain) && PathOf(w, chain) == p
  }

  /** A path that spends the whole input. */
  ghost predicate WholePath(w: Problem, p: Path) {
    LegalPath(w, p) && p.matched == |w.compact|
  }

  // What a chain says, entry by entry.

  function ChainText(chain: seq<Match>): string {
    if chain == [] then "" else ChainText(chain[..|chain| - 1]) + chain[|chain| - 1].entry.text
  }

  function ChainSyllables(chain: seq<Match>): seq<string> {
    if chain == [] then [] else ChainSyllables(chain[..|chain| - 1]) + chain[|chain| - 1].entry.syllablePath
  }

  function ChainTokens(chain: seq<Match>): seq<int> {
    if chain == [] then [] else ChainTokens(chain[..|chain| - 1]) + chain[|chain| - 1].entry.tokenPath
  }

  /** Only an entry that ends with the keys predicts syllables. */
  function ChainPredicted(w: Problem, chain: seq<Match>): nat {
    if chain == [] then 0
    else
      var last := chain[|chain| - 1];
      ChainPredicted(w, chain[..|chain| - 1]) + if last.nextPosition == |w.compact| then last.completionSyllables else 0
  }

  function Known(score: Option<real>): real {
    if score.Some? then score.value else 0.0
  }

  function ChainScore(w: Problem, chain: seq<Match>): real {
    if chain == [] || chain[|chain| - 1].entry.tokenPath == [] then 0.0
    else if |chain| == 1 then Known(RootScore(w, chain[0].entry.tokenPath))
    else ChainScore(w, chain[..|chain| - 1]) + Known(TokenScore(w, chain[|chain| - 1].entry.tokenPath))
  }

  /** A root, and entries that each go on where the one before stopped, within the length of a path. */
  ghost predicate ChainSteps(w: Problem, chain: seq<Match>) {
    chain != [] && RootAt(w, chain[0]) && forall i :: 0 < i < |chain| ==> StepAt(w, chain, i)
  }

  ghost predicate StepAt(w: Problem, chain: seq<Match>, i: nat)
    requires 0 < i < |chain|
  {
    && EdgeAt(w, chain[i - 1].nextPosition, chain[i])
    && |ChainTokens(chain[..i + 1])| <= MAX_MODEL_TOKENS && |ChainText(chain[..i + 1])| <= MAX_HAN_CHARACTERS
  }

  ghost predicate PathSays(w: Problem, chain: seq<Match>, p: Path) {
    && chain != [] && p.text == ChainText(chain) && p.pinyinPath == ChainSyllables(chain) && p.tokenPath == ChainTokens(chain)
    && p.score == ChainScore(w, chain) && p.predicted == ChainPredicted(w, chain) && p.matched == chain[|chain| - 1].nextPosition
  }

  lemma OneLink(w: Problem, m: Match)
    requires RootShape(w, m)
    ensures PathSays(w, [m], RootPath(w, m))
  {
    assert [m][..|[m]| - 1] == [] && "" + m.entry.text == m.entry.text && [] + m.entry.syllablePath == m.entry.syllablePath;
    assert [] + m.entry.tokenPath == m.entry.tokenPath;
  }

  /** Legal chains are exactly these, and their paths say what their entries do. */
  lemma {:induction false} LegalChainExactly(w: Problem, chain: seq<Match>)
    ensures LegalChain(w, chain) <==> ChainSteps(w, chain)
    ensures LegalChain(w, chain) ==> PathSays(w, chain, PathOf(w, chain))
  {
    hide RootAt, IsBest;
    if |chain| == 1 {
      assert chain == [chain[0]];
      if RootAt(w, chain[0]) { RootHasShape(w, chain[0]); OneLink(w, chain[0]); }
    } else if chain != [] {
      var n := |chain| - 1;
      var front, last := chain[..n], chain[n];
      LegalChainExactly(w, front);
      ChainFront(w, chain);
    }
  }

  lemma RootHasShape(w: Problem, m: Match)
    requires RootAt(w, m)
    ensures RootShape(w, m)
  {}

  lemma ChainFront(w: Problem, chain: seq<Match>)
    requires |chain| > 1
    ensures ChainSteps(w, chain) <==>
              var n := |chain| - 1;
              && ChainSteps(w, chain[..n]) && EdgeAt(w, chain[n - 1].nextPosition, chain[n])
              && |ChainTokens(chain)| <= MAX_MODEL_TOKENS && |ChainText(chain)| <= MAX_HAN_CHARACTERS
  {
    hide RootAt, StepAt;
    var n := |chain| - 1;
    var front := chain[..n];
    assert front[0] == chain[0];
    LastStep(w, chain);
    forall i | 0 < i < n ensures StepAt(w, front, i) == StepAt(w, chain, i) { StepAtFront(w, chain, i); }
  }

  lemma LastStep(w: Problem, chain: seq<Match>)
    requires |chain| > 1
    ensures var n := |chain| - 1;
            StepAt(w, chain, n) <==>
              EdgeAt(w, chain[n - 1].nextPosition, chain[n]) && |ChainTokens(chain)| <= MAX_MODEL_TOKENS && |ChainText(chain)| <= MAX_HAN_CHARACTERS
  {
    hide EdgeAt, ChainTokens, ChainText;
    assert chain[..|chain|] == chain;
  }

  lemma StepAtFront(w: Problem, chain: seq<Match>, i: nat)
    requires 0 < i < |chain| - 1
    ensures StepAt(w, chain[..|chain| - 1], i) == StepAt(w, chain, i)
  {
    hide EdgeAt, ChainTokens, ChainText;
    assert chain[..|chain| - 1][..i + 1] == chain[..i + 1];
  }

  /** The tokenizer's promise: a token path has one text. */
  ghost predicate TextDetermined(w: Problem) {
    forall p, p' :: LegalPath(w, p) && LegalPath(w, p') && p.tokenPath == p'.tokenPath ==> p.text == p'.text
  }

  lemma RootIsLegal(w: Problem, m: Match)
    requires RootAt(w, m)
    ensures LegalPath(w, RootPath(w, m)) && Fits(RootPath(w, m)) && RootPath(w, m).matched <= |w.compact|
  {
    assert LegalChain(w, [m]) && PathOf(w, [m]) == RootPath(w, m);
    AlignsMonotone(QueryAt(w, 0), m.entry.syllablePath, 0, 0, false, OutcomeOf(m));
  }

  lemma ChildIsLegal(w: Problem, p: Path, m: Match)
    requires LegalPath(w, p) && Expands(w, p, m)
    ensures LegalPath(w, Child(w, p, m)) && p.matched < Child(w, p, m).matched <= |w.compact|
  {
    var chain :| LegalChain(w, chain) && PathOf(w, chain) == p;
    var longer := chain + [m];
    assert longer[..|longer| - 1] == chain;
    assert LegalChain(w, longer) && PathOf(w, longer) == Child(w, p, m);
    AlignsMonotone(QueryAt(w, p.matched), m.entry.syllablePath, p.matched, 0, false, OutcomeOf(m));
  }

  /** A legal path fits, has a first token and stays within the input. */
  lemma {:induction false} LegalPathShape(w: Problem, chain: seq<Match>)
    requires LegalChain(w, chain)
    ensures var p := PathOf(w, chain);
            && Fits(p) && p.tokenPath != [] && p.matched <= |w.compact|
            && RootAt(w, chain[0]) && chain[0].entry.tokenPath != []
            && p.tokenPath[0] == chain[0].entry.tokenPath[0]
            && |chain| <= p.matched
  {
    if |chain| == 1 {
      RootIsLegal(w, chain[0]);
    } else {
      var front, m := chain[..|chain| - 1], chain[|chain| - 1];
      LegalPathShape(w, front);
      ChildIsLegal(w, PathOf(w, front), m);
    }
  }

  /** The text of a legal path is made of characters of the index. */
  lemma {:induction false} PathTextFromIndex(w: Problem, chain: seq<Match>)
    requires LegalChain(w, chain)
    ensures FromIndex(w.entries, PathOf(w, chain).text)
  {
    hide Occurs;
    var m := chain[|chain| - 1];
    EntryFromIndex(w.entries, m.entry);
    if |chain| > 1 { PathTextFromIndex(w, chain[..|chain| - 1]); }
  }

  lemma EntryFromIndex(entries: set<Entry>, e: Entry)
    requires e in entries
    ensures FromIndex(entries, e.text)
  {}

  // ---------------------------------------------------------------------------------
  // Legal paths are finitely many: the measure of the walk's progress.

  ghost predicate HasBest(q: Query, e: Entry) {
    exists m :: IsBest(q, e, m)
  }

  ghost function TheBest(q: Query, e: Entry): (m: Match)
    requires HasBest(q, e)
    ensures IsBest(q, e, m)
  {
    var m :| IsBest(q, e, m); m
  }

  ghost function BestMatches(q: Query, entries: set<Entry>): set<Match> {
    set e | e in entries && HasBest(q, e) :: TheBest(q, e)
  }

  lemma BestIsListed(q: Query, entries: set<Entry>, m: Match)
    requires m.entry in entries && IsBest(q, m.entry, m)
    ensures m in BestMatches(q, entries)
  {
    assert HasBest(q, m.entry);
    BestIsUnique(q, m.entry, m, TheBest(q, m.entry));
  }

  ghost function Level(w: Problem, depth: nat): (r: set<Path>)
    ensures depth > 0 ==> Level(w, depth - 1) <= r
  {
    if depth == 0 then RootPaths(w)
    else
      var before := Level(w, depth - 1);
      Both(before, Children(w, before))
  }

  ghost function Both(a: set<Path>, b: set<Path>): (r: set<Path>)
    ensures a <= r && b <= r
  {
    a + b
  }

  ghost function RootPaths(w: Problem): set<Path> {
    set m | m in BestMatches(QueryAt(w, 0), w.entries) && RootAt(w, m) :: RootPath(w, m)
  }

  ghost function Children(w: Problem, paths: set<Path>): set<Path> {
    set p, m | p in paths && m in BestMatches(QueryAt(w, p.matched), w.entries) && Expands(w, p, m) :: Child(w, p, m)
  }

  lemma {:induction false} LevelGrows(w: Problem, a: nat, b: nat)
    requires a <= b
    ensures Level(w, a) <= Level(w, b)
    decreases b
  {
    hide RootPaths, Children, Both;
    if a < b {
      LevelGrows(w, a, b - 1);
    }
  }

  lemma {:induction false} ChainInLevel(w: Problem, chain: seq<Match>)
    requires LegalChain(w, chain)
    ensures PathOf(w, chain) in Level(w, |chain|)
  {
    if |chain| == 1 {
      BestIsListed(QueryAt(w, 0), w.entries, chain[0]);
      assert PathOf(w, chain) in Level(w, 0);
      LevelGrows(w, 0, 1);
    } else {
      var front, m := chain[..|chain| - 1], chain[|chain| - 1];
      ChainInLevel(w, front);
      BestIsListed(QueryAt(w, PathOf(w, front).matched), w.entries, m);
    }
  }

  ghost function Universe(w: Problem): set<Key> {
    set p | p in Level(w, |w.compact|) :: KeyOf(p)
  }

  lemma LegalInUniverse(w: Problem, p: Path)
    requires LegalPath(w, p)
    ensures KeyOf(p) in Universe(w)
  {
    var chain :| LegalChain(w, chain) && PathOf(w, chain) == p;
    LegalPathShape(w, chain);
    ChainInLevel(w, chain);
    LevelGrows(w, |chain|, |w.compact|);
  }

  // ---------------------------------------------------------------------------------
  // The worklist.

  /** Queue priority: the tier or round-robin components, then the rest of the tuple (matched
      letters, predicted syllables, structure, score, text) as one integer rank. */
  datatype Priority = Priority(tier: nat, group: nat, rootRound: nat, rank: int)

  /** Siblings not yet materialised: children of one parent from `start` on and, for a
      short pass, every remaining suffix of the parent after them. */
  datatype Remainder = Remainder(parent: Path, seeds: seq<Match>, start: nat, serialBase: nat, unextended: bool)

  /** A heap entry. The siblings that wait behind a lazily pushed head travel with it. */
  datatype Item = Item(priority: Priority, serial: nat, path: Path, staticRank: int, rest: Option<Remainder>)

  predicate ItemLess(a: Item, b: Item) {
    if a.priority.tier != b.priority.tier then a.priority.tier < b.priority.tier
    else if a.priority.group != b.priority.group then a.priority.group < b.priority.group
    else if a.priority.rootRound != b.priority.rootRound then a.priority.rootRound < b.priority.rootRound
    else if a.priority.rank != b.priority.rank then a.priority.rank < b.priority.rank
    else a.serial < b.serial
  }

  /** A remainder still promises a child with key k. */
  ghost predicate Promises(w: Problem, r: Remainder, k: Key) {
    || (exists j :: r.start <= j < |r.seeds| && Expands(w, r.parent, r.seeds[j]) && KeyOf(Child(w, r.parent, r.seeds[j])) == k)
    || (r.unextended && exists m :: Expands(w, r.parent, m) && !ShortComplete(w.compact, m) && KeyOf(Child(w, r.parent, m)) == k)
  }

  ghost predicate Holds(w: Problem, item: Item, k: Key) {
    KeyOf(item.path) == k || (item.rest.Some? && Promises(w, item.rest.value, k))
  }

  ghost predicate Waiting(w: Problem, frontier: seq<Item>, k: Key) {
    exists i :: 0 <= i < |frontier| && Holds(w, frontier[i], k)
  }

  ghost predicate Awaited(w: Problem, frontier: seq<Item>, deferred: seq<Match>, visited: set<Key>, k: Key) {
    || k in visited
    || Waiting(w, frontier, k)
    || exists d :: d in deferred && RootShape(w, d) && KeyOf(RootPath(w, d)) == k
  }

  ghost predicate RemainderOk(w: Problem, r: Remainder) {
    && LegalPath(w, r.parent) && r.parent.matched < |w.compact|
    && r.start <= |r.seeds| <= |w.entries|
    && forall j :: 0 <= j < |r.seeds| ==> EdgeAt(w, r.parent.matched, r.seeds[j])
  }

  ghost predicate ItemOk(w: Problem, item: Item) {
    LegalPath(w, item.path) && (item.rest.Some? ==> !w.exactOnly && RemainderOk(w, item.rest.value))
  }

  /** Paths already expanded stand for the visited keys. */
  ghost predicate Represented(w: Problem, processed: set<Path>, visited: set<Key>) {
    && (forall p :: p in processed ==> LegalPath(w, p) && KeyOf(p) in visited)
    && (forall k :: k in visited ==> exists p :: p in processed && KeyOf(p) == k)
  }

  /** The invariant that makes the lazy worklist complete: every root, and every child of an
      expanded path, is visited, waiting, promised by a waiting item, or deferred. */
  ghost predicate NothingLost(w: Problem, processed: set<Path>, frontier: seq<Item>, deferred: seq<Match>, visited: set<Key>) {
    && (forall m :: RootAt(w, m) ==> Awaited(w, frontier, deferred, visited, KeyOf(RootPath(w, m))))
    && (forall p, m :: p in processed && Expands(w, p, m) ==> Awaited(w, frontier, deferred, visited, KeyOf(Child(w, p, m))))
  }

  ghost predicate Lists(w: Problem, processed: set<Path>, frontier: seq<Item>, deferred: seq<Match>, visited: set<Key>) {
    && (forall i :: 0 <= i < |frontier| ==> ItemOk(w, frontier[i]))
    && (forall d :: d in deferred ==> RootAt(w, d))
    && Represented(w, processed, visited) && visited <= Universe(w)
    && NothingLost(w, processed, frontier, deferred, visited)
  }

  /** Two legal paths with the same key have children with the same keys. */
  lemma SameKeySameChildren(w: Problem, p: Path, p': Path, m: Match)
    requires TextDetermined(w) && LegalPath(w, p) && LegalPath(w, p') && KeyOf(p) == KeyOf(p') && Expands(w, p, m)
    ensures Expands(w, p', m) && KeyOf(Child(w, p', m)) == KeyOf(Child(w, p, m))
  {}

  lemma ChildVisited(w: Problem, processed: set<Path>, visited: set<Key>, p: Path, m: Match)
    requires TextDetermined(w) && Represented(w, processed, visited) && NothingLost(w, processed, [], [], visited)
    requires LegalPath(w, p) && KeyOf(p) in visited && Expands(w, p, m)
    ensures KeyOf(Child(w, p, m)) in visited
  {
    var p' :| p' in processed && KeyOf(p') == KeyOf(p);
    SameKeySameChildren(w, p, p', m);
    assert Awaited(w, [], [], visited, KeyOf(Child(w, p', m)));
  }

  /** When nothing waits any more, every legal path has been visited. */
  lemma {:induction false} DrainedMeansVisited(w: Problem, processed: set<Path>, visited: set<Key>, chain: seq<Match>)
    requires TextDetermined(w) && Represented(w, processed, visited) && NothingLost(w, processed, [], [], visited)
    requires LegalChain(w, chain)
    ensures KeyOf(PathOf(w, chain)) in visited
  {
    if |chain| == 1 {
      assert Awaited(w, [], [], visited, KeyOf(RootPath(w, chain[0])));
    } else {
      var front := chain[..|chain| - 1];
      DrainedMeansVisited(w, processed, visited, front);
      ChildVisited(w, processed, visited, PathOf(w, front), chain[|chain| - 1]);
    }
  }

  // Removing and adding heap items.

  function Without(s: seq<Item>, i: nat): (r: seq<Item>)
    requires i < |s|
    ensures |r| == |s| - 1
  {
    s[..i] + s[i + 1..]
  }

  lemma WaitingWithout(w: Problem, s: seq<Item>, i: nat, k: Key)
    requires i < |s| && Waiting(w, s, k)
    ensures Holds(w, s[i], k) || Waiting(w, Without(s, i), k)
  {
    var j :| 0 <= j < |s| && Holds(w, s[j], k);
    if j != i {
      assert Without(s, i)[if j < i then j else j - 1] == s[j];
    }
  }

  lemma WaitingAppend(w: Problem, s: seq<Item>, t: seq<Item>, k: Key)
    ensures Waiting(w, s, k) ==> Waiting(w, s + t, k)
    ensures Waiting(w, t, k) ==> Waiting(w, s + t, k)
  {
    if Waiting(w, s, k) {
      var j :| 0 <= j < |s| && Holds(w, s[j], k);
      assert (s + t)[j] == s[j];
    }
    if Waiting(w, t, k) {
      var j :| 0 <= j < |t| && Holds(w, t[j], k);
      assert (s + t)[|s| + j] == t[j];
    }
  }

  lemma AwaitedReplace(w: Problem, s: seq<Item>, i: nat, t: seq<Item>, deferred: seq<Match>, visited: set<Key>, visited': set<Key>, k: Key)
    requires i < |s| && visited <= visited' && Awaited(w, s, deferred, visited, k)
    requires Holds(w, s[i], k) ==> k in visited' || Waiting(w, t, k)
    ensures Awaited(w, Without(s, i) + t, deferred, visited', k)
  {
    hide Holds;
    if Waiting(w, s, k) {
      WaitingWithout(w, s, i, k);
      WaitingAppend(w, Without(s, i), t, k);
    }
  }

  /** Replacing one item by others that hold all its keys loses nothing. */
  lemma ReplaceItem(w: Problem, processed: set<Path>, s: seq<Item>, i: nat, t: seq<Item>, deferred: seq<Match>, visited: set<Key>)
    requires i < |s| && Lists(w, processed, s, deferred, visited)
    requires forall j :: 0 <= j < |t| ==> ItemOk(w, t[j])
    requires forall k :: Holds(w, s[i], k) ==> k in visited || Waiting(w, t, k)
    ensures Lists(w, processed, Without(s, i) + t, deferred, visited)
  {
    hide ItemOk, Holds, RootAt, Expands, LegalPath, Waiting, Awaited;
    forall k | Awaited(w, s, deferred, visited, k) ensures Awaited(w, Without(s, i) + t, deferred, visited, k) {
      AwaitedReplace(w, s, i, t, deferred, visited, visited, k);
    }
  }

  /** A deferred root becomes a heap item. */
  lemma DeferredBecomesItem(w: Problem, processed: set<Path>, s: seq<Item>, deferred: seq<Match>, visited: set<Key>, item: Item)
    requires deferred != [] && Lists(w, processed, s, deferred, visited)
    requires RootShape(w, deferred[0]) && item.path == RootPath(w, deferred[0]) && item.rest.None?
    ensures Lists(w, processed, s + [item], deferred[1..], visited)
  {
    hide IsBest, Expands;
    assert deferred[0] in deferred;
    RootIsLegal(w, deferred[0]);
    forall k | Awaited(w, s, deferred, visited, k) ensures Awaited(w, s + [item], deferred[1..], visited, k) {
      WaitingAppend(w, s, [item], k);
      if d :| d in deferred && RootShape(w, d) && KeyOf(RootPath(w, d)) == k {
        if d in deferred[1..] {
        } else {
          assert d == deferred[0];
          assert Holds(w, [item][0], k);
        }
      }
    }
  }

  lemma RepresentedMore(w: Problem, processed: set<Path>, visited: set<Key>, p: Path)
    requires Represented(w, processed, visited) && LegalPath(w, p)
    ensures Represented(w, processed + {p}, visited + {KeyOf(p)})
  {
    hide LegalPath;
    forall k | k in visited + {KeyOf(p)} ensures exists p' :: p' in processed + {p} && KeyOf(p') == k {
      if k in visited {
        var p' :| p' in processed && KeyOf(p') == k;
        assert p' in processed + {p};
      } else {
        assert p in processed + {p};
      }
    }
  }

  lemma NothingLostVisit(w: Problem, processed: set<Path>, s: seq<Item>, i: nat, t: seq<Item>, deferred: seq<Match>, visited: set<Key>)
    requires i < |s| && NothingLost(w, processed, s, deferred, visited)
    requires forall k :: Holds(w, s[i], k) ==> k == KeyOf(s[i].path) || Waiting(w, t, k)
    requires forall m :: Expands(w, s[i].path, m) ==> Waiting(w, t, KeyOf(Child(w, s[i].path, m)))
    ensures NothingLost(w, processed + {s[i].path}, Without(s, i) + t, deferred, visited + {KeyOf(s[i].path)})
  {
    hide IsBest, RootAt, Waiting, Awaited, Holds;
    var p := s[i].path;
    forall k | Awaited(w, s, deferred, visited, k)
      ensures Awaited(w, Without(s, i) + t, deferred, visited + {KeyOf(p)}, k)
    {
      AwaitedReplace(w, s, i, t, deferred, visited, visited + {KeyOf(p)}, k);
    }
    forall m | Expands(w, p, m) ensures Awaited(w, Without(s, i) + t, deferred, visited + {KeyOf(p)}, KeyOf(Child(w, p, m))) {
      WaitsInTail(w, Without(s, i), t, deferred, visited + {KeyOf(p)}, KeyOf(Child(w, p, m)));
    }
  }

  /** Expanding a new path: its siblings and its children all wait in the pushed items. */
  lemma VisitItem(w: Problem, processed: set<Path>, s: seq<Item>, i: nat, t: seq<Item>, deferred: seq<Match>, visited: set<Key>)
    requires i < |s| && Lists(w, processed, s, deferred, visited)
    requires forall j :: 0 <= j < |t| ==> ItemOk(w, t[j])
    requires s[i].rest.Some? ==> forall k :: Promises(w, s[i].rest.value, k) ==> Waiting(w, t, k)
    requires forall m :: Expands(w, s[i].path, m) ==> Waiting(w, t, KeyOf(Child(w, s[i].path, m)))
    ensures Lists(w, processed + {s[i].path}, Without(s, i) + t, deferred, visited + {KeyOf(s[i].path)})
  {
    hide IsBest, RootAt, LegalPath, Promises, Waiting, NothingLost, Represented, RemainderOk, Universe;
    assert ItemOk(w, s[i]);
    LegalInUniverse(w, s[i].path);
    RepresentedMore(w, processed, visited, s[i].path);
    NothingLostVisit(w, processed, s, i, t, deferred, visited);
  }

  lemma WaitsInTail(w: Problem, s: seq<Item>, t: seq<Item>, deferred: seq<Match>, visited: set<Key>, k: Key)
    requires Waiting(w, t, k)
    ensures Awaited(w, s + t, deferred, visited, k)
  {
    WaitingAppend(w, s, t, k);
  }

  /** Total cost of the heap, for the termination measure. */
  ghost function Total(cost: Item -> nat, s: seq<Item>): nat {
    if s == [] then 0 else cost(s[0]) + Total(cost, s[1..])
  }

  lemma {:induction false} TotalAppend(cost: Item -> nat, s: seq<Item>, t: seq<Item>)
    ensures Total(cost, s + t) == Total(cost, s) + Total(cost, t)
  {
    if s == [] {
      assert s + t == t;
    } else {
      TotalAppend(cost, s[1..], t);
      assert (s + t)[1..] == s[1..] + t;
    }
  }

  lemma {:induction false} TotalWithout(cost: Item -> nat, s: seq<Item>, i: nat)
    requires i < |s|
    ensures Total(cost, s) == Total(cost, Without(s, i)) + cost(s[i])
  {
    if i == 0 {
      assert Without(s, 0) == s[1..];
    } else {
      TotalWithout(cost, s[1..], i - 1);
      assert Without(s, i)[1..] == Without(s[1..], i - 1);
      assert Without(s, i)[0] == s[0];
    }
  }

  /** An item costs itself and every sibling that may still follow it. */
  ghost function WorkOf(w: Problem): Item -> nat {
    (item: Item) => 1 + (if item.rest.Some? then RemainderWork(w, item.rest.value) else 0)
  }

  ghost function RemainderWork(w: Problem, r: Remainder): nat {
    (if r.start <= |r.seeds| then |r.seeds| - r.start else 0) + (if r.unextended then |w.entries| + 1 else 0)
  }

  // ---------------------------------------------------------------------------------
  // Suffixes of a position.

  /** The seeds of one scan: legal edges, all those of the wanted kind, each entry once. */
  ghost predicate SeedsFor(w: Problem, position: nat, short: bool, seeds: seq<Match>) {
    && |seeds| <= |w.entries|
    && (forall j :: 0 <= j < |seeds| ==> EdgeAt(w, position, seeds[j]))
    && (forall m :: EdgeAt(w, position, m) && ShortComplete(w.compact, m) == short ==> m in seeds)
  }

  ghost predicate AllEdges(w: Problem, position: nat, edges: seq<Match>) {
    && (forall j :: 0 <= j < |edges| ==> EdgeAt(w, position, edges[j]))
    && (forall m :: EdgeAt(w, position, m) ==> m in edges)
  }

  lemma {:induction false} DistinctEntriesBound(s: seq<Match>, entries: set<Entry>)
    requires forall i, j :: 0 <= i < j < |s| ==> s[i].entry != s[j].entry
    requires forall i :: 0 <= i < |s| ==> s[i].entry in entries
    ensures |s| <= |entries|
  {
    if s != [] {
      var last := |s| - 1;
      DistinctEntriesBound(s[..last], entries - {s[last].entry});
    }
  }

  function SeedFilter(w: Problem, position: nat, short: bool): Match -> bool {
    (m: Match) => ShortComplete(w.compact, m) == short && EdgeShape(w, position, m)
  }

  lemma ScanAgrees(w: Problem, position: nat, short: bool, m: Match)
    requires position < |w.compact| && ShortComplete(w.compact, m) == short
    ensures IsBest(QueryAt(w, position), m.entry, m)
            <==> IsBest(QueryAt(w, position).(includeDescendants := !short), m.entry, m)
  {
    var q := QueryAt(w, position);
    if short {
      ShortMatchesAgree(q, m.entry, m);
    } else {
      assert q == q.(includeDescendants := !short);
    }
  }

  /** The two scans, with and without descendants, list the edges of their own kind. */
  lemma ScanIsComplete(w: Problem, position: nat, short: bool, result: seq<Match>)
    requires position < |w.compact| && !w.exactOnly
    requires IsEnumeration(QueryAt(w, position).(includeDescendants := !short), w.entries, result)
    ensures SeedsFor(w, position, short, Filter(SeedFilter(w, position, short), result))
  {
    hide IsBest;
    var q' := QueryAt(w, position).(includeDescendants := !short);
    var seeds := Filter(SeedFilter(w, position, short), result);
    DistinctEntriesBound(result, w.entries);
    forall j | 0 <= j < |seeds| ensures EdgeAt(w, position, seeds[j]) {
      assert seeds[j] in seeds;
      ScanAgrees(w, position, short, seeds[j]);
    }
    forall m | EdgeAt(w, position, m) && ShortComplete(w.compact, m) == short ensures m in seeds {
      ScanAgrees(w, position, short, m);
      BestIsListedOnce(q', w.entries, result, m);
    }
  }

  lemma BestIsListedOnce(q: Query, entries: set<Entry>, result: seq<Match>, m: Match)
    requires IsEnumeration(q, entries, result) && m.entry in entries && IsBest(q, m.entry, m)
    ensures m in result
  {
    assert Derives(q, m.entry, OutcomeOf(m));
    var i :| 0 <= i < |result| && result[i].entry == m.entry;
    BestIsUnique(q, m.entry, result[i], m);
  }

  lemma DirectIsComplete(w: Problem, position: nat, result: seq<Match>)
    requires position < |w.compact| && IsEnumeration(QueryAt(w, position), w.entries, result)
    ensures AllEdges(w, position, Filter((m: Match) => EdgeShape(w, position, m), result))
  {
    hide IsBest;
    var edges := Filter((m: Match) => EdgeShape(w, position, m), result);
    forall j | 0 <= j < |edges| ensures EdgeAt(w, position, edges[j]) {
      assert edges[j] in edges;
    }
    forall m | EdgeAt(w, position, m) ensures m in edges {
      BestIsListedOnce(QueryAt(w, position), w.entries, result, m);
    }
  }

  function ByInt(rank: Match -> int): (Match, Match) -> bool {
    (a, b) => rank(a) <= rank(b)
  }

  lemma SortedSeeds(w: Problem, position: nat, short: bool, seeds: seq<Match>, rank: Match -> int)
    requires SeedsFor(w, position, short, seeds)
    ensures TotalPreorder(ByInt(rank)) && SeedsFor(w, position, short, StableSort(ByInt(rank), seeds))
  {
    StableSortOrders(ByInt(rank), seeds);
    var r := StableSort(ByInt(rank), seeds);
    forall j | 0 <= j < |r| ensures EdgeAt(w, position, r[j]) {
      assert r[j] in seeds;
    }
  }

  // ---------------------------------------------------------------------------------
  // What has been emitted.

  datatype Candidate = Candidate(text: string, pinyinPath: seq<string>, consumedKeys: nat, tokenPath: seq<int>, score: real, predicted: nat)

  function CandidateOf(w: Problem, p: Path): Candidate {
    Candidate(p.text, p.pinyinPath, |w.raw|, p.tokenPath, p.score, p.predicted)
  }

  function IdentityOf(norm: string -> string, c: Candidate): (string, nat) {
    (norm(c.text), c.consumedKeys)
  }

  ghost function Identities(norm: string -> string, emitted: seq<Candidate>): set<(string, nat)> {
    set i | 0 <= i < |emitted| :: IdentityOf(norm, emitted[i])
  }

  /** The candidate of some expanded whole-input path. */
  ghost predicate Produced(w: Problem, processed: set<Path>, c: Candidate) {
    exists p :: p in processed && p.matched == |w.compact| && c == CandidateOf(w, p)
  }

  /** The candidate of some legal whole-input path. */
  ghost predicate IsWhole(w: Problem, c: Candidate) {
    exists p :: WholePath(w, p) && c == CandidateOf(w, p)
  }

  ghost predicate EmissionOk(w: Problem, norm: string -> string, seen: set<(string, nat)>, processed: set<Path>,
                             existing: set<(string, nat)>, emitted: seq<Candidate>) {
    && existing == seen + Identities(norm, emitted)
    && (forall i, j :: 0 <= i < j < |emitted| ==> IdentityOf(norm, emitted[i]) != IdentityOf(norm, emitted[j]))
    && (forall i :: 0 <= i < |emitted| ==> IdentityOf(norm, emitted[i]) !in seen)
    && (forall i :: 0 <= i < |emitted| ==> Produced(w, processed, emitted[i]))
    && (forall p :: p in processed && p.matched == |w.compact| ==> IdentityOf(norm, CandidateOf(w, p)) in existing)
  }

  lemma Emits(w: Problem, norm: string -> string, seen: set<(string, nat)>, processed: set<Path>,
              existing: set<(string, nat)>, emitted: seq<Candidate>, p: Path)
    requires EmissionOk(w, norm, seen, processed, existing, emitted) && p.matched == |w.compact|
    ensures var c := CandidateOf(w, p); var id := IdentityOf(norm, c);
            if id in existing then EmissionOk(w, norm, seen, processed + {p}, existing, emitted)
            else EmissionOk(w, norm, seen, processed + {p}, existing + {id}, emitted + [c])
  {
    hide Produced;
    var c := CandidateOf(w, p);
    ProducedMore(w, processed, p);
    IdentitiesAppend(norm, emitted, [c]);
    assert Identities(norm, [c]) == {IdentityOf(norm, c)} by {
      assert IdentityOf(norm, [c][0]) == IdentityOf(norm, c);
    }
    forall i | 0 <= i < |emitted| ensures IdentityOf(norm, emitted[i]) in Identities(norm, emitted) {}
  }

  /** What a whole run owes its caller. */
  ghost predicate ExactlyWholePaths(w: Problem, norm: string -> string, seen: set<(string, nat)>, emitted: seq<Candidate>) {
    && (forall i :: 0 <= i < |emitted| ==> IsWhole(w, emitted[i]))
    && (forall i, j :: 0 <= i < j < |emitted| ==> IdentityOf(norm, emitted[i]) != IdentityOf(norm, emitted[j]))
    && (forall i :: 0 <= i < |emitted| ==> IdentityOf(norm, emitted[i]) !in seen)
    && (forall p :: WholePath(w, p) ==> IdentityOf(norm, CandidateOf(w, p)) in seen + Identities(norm, emitted))
  }

  /** The candidate says the chain: its entries one after another, over all of the keys. */
  ghost predicate Says(w: Problem, chain: seq<Match>, c: Candidate) {
    && chain != [] && chain[|chain| - 1].nextPosition == |w.compact|
    && c.text == ChainText(chain) && c.pinyinPath == ChainSyllables(chain) && c.tokenPath == ChainTokens(chain)
    && c.score == ChainScore(w, chain) && c.predicted == ChainPredicted(w, chain) && c.consumedKeys == |w.raw|
  }

  /** What a run owes its caller, chain by chain: every candidate says one, and every chain over all of
      the keys is known or said. */
  lemma EmittedExactly(w: Problem, norm: string -> string, seen: set<(string, nat)>, emitted: seq<Candidate>)
    requires ExactlyWholePaths(w, norm, seen, emitted)
    ensures forall i :: 0 <= i < |emitted| ==> exists chain :: ChainSteps(w, chain) && Says(w, chain, emitted[i])
    ensures forall chain: seq<Match> :: ChainSteps(w, chain) && chain != [] && chain[|chain| - 1].nextPosition == |w.compact| ==>
              (norm(ChainText(chain)), |w.raw|) in seen || exists i :: 0 <= i < |emitted| && norm(emitted[i].text) == norm(ChainText(chain))
  {
    hide ChainSteps, LegalChain;
    forall i | 0 <= i < |emitted| ensures exists chain :: ChainSteps(w, chain) && Says(w, chain, emitted[i]) {
      assert IsWhole(w, emitted[i]);
      var p :| WholePath(w, p) && emitted[i] == CandidateOf(w, p);
      var chain :| LegalChain(w, chain) && PathOf(w, chain) == p;
      LegalChainExactly(w, chain);
      assert Says(w, chain, emitted[i]);
    }
    forall chain: seq<Match> | ChainSteps(w, chain) && chain != [] && chain[|chain| - 1].nextPosition == |w.compact|
      ensures (norm(ChainText(chain)), |w.raw|) in seen || exists i :: 0 <= i < |emitted| && norm(emitted[i].text) == norm(ChainText(chain))
    {
      LegalChainExactly(w, chain);
      assert WholePath(w, PathOf(w, chain));
      assert IdentityOf(norm, CandidateOf(w, PathOf(w, chain))) in seen + Identities(norm, emitted);
    }
  }

  lemma DrainedMeansExact(w: Problem, norm: string -> string, seen: set<(string, nat)>, processed: set<Path>, visited: set<Key>,
                          existing: set<(string, nat)>, emitted: seq<Candidate>)
    requires TextDetermined(w) && Represented(w, processed, visited) && NothingLost(w, processed, [], [], visited)
    requires EmissionOk(w, norm, seen, processed, existing, emitted)
    ensures ExactlyWholePaths(w, norm, seen, emitted)
  {
    forall p | WholePath(w, p) ensures IdentityOf(norm, CandidateOf(w, p)) in seen + Identities(norm, emitted) {
      var chain :| LegalChain(w, chain) && PathOf(w, chain) == p;
      DrainedMeansVisited(w, processed, visited, chain);
      var p' :| p' in processed && KeyOf(p') == KeyOf(p);
      assert p'.text == p.text;
    }
    forall i | 0 <= i < |emitted| ensures IsWhole(w, emitted[i]) {
      assert Produced(w, processed, emitted[i]);
      var p :| p in processed && p.matched == |w.compact| && emitted[i] == CandidateOf(w, p);
      assert WholePath(w, p);
    }
  }

  // ---------------------------------------------------------------------------------
  // The cursor.

  /** Letters the reading adds beyond the typed prefix: an extended path is not an exact spelling. */
  predicate Extended(w: Problem, p: Path)
    requires p.matched <= |w.compact|
  {
    Spelling(p.pinyinPath) != w.compact[..p.matched]
  }

  // Complete spellings come first.

  lemma {:induction false} SpellingJoins(a: seq<string>, b: seq<string>)
    ensures Spelling(a + b) == Spelling(a) + Spelling(b)
  {
    if a == [] {
      assert a + b == b;
    } else {
      SpellingJoins(a[1..], b);
      hide Spelling;
      assert (a + b)[1..] == a[1..] + b;
      SpellingStep(a);
      SpellingStep(a + b);
      Regroup(a[0], Spelling(a[1..]), Spelling(b));
    }
  }

  lemma SpellingStep(a: seq<string>)
    requires a != []
    ensures Spelling(a) == a[0] + Spelling(a[1..])
  {}

  /** Two parts that are each long enough and together spell a prefix each spell their share. */
  lemma FrontSpells(front: string, more: string, text: string, a: nat, b: nat)
    requires a <= b <= |text| && front + more == text[..b] && |front| >= a && |more| >= b - a
    ensures front == text[..a]
  {
    assert (front + more)[..|front|] == front;
  }

  /** A legal path spells at least the letters it has matched. */
  lemma {:induction false} SpellsEnough(w: Problem, chain: seq<Match>)
    requires LegalChain(w, chain)
    ensures |Spelling(PathOf(w, chain).pinyinPath)| >= PathOf(w, chain).matched
  {
    var m := chain[|chain| - 1];
    if |chain| == 1 {
      AlignsWithinSpelling(QueryAt(w, 0), m.entry.syllablePath, 0, 0, false, OutcomeOf(m));
    } else {
      var front := chain[..|chain| - 1];
      SpellsEnough(w, front);
      EdgeSpellsEnough(w, PathOf(w, front), m);
      SpellingJoins(PathOf(w, front).pinyinPath, m.entry.syllablePath);
    }
  }

  lemma EdgeSpellsEnough(w: Problem, p: Path, m: Match)
    requires Expands(w, p, m)
    ensures p.matched + |Spelling(m.entry.syllablePath)| >= m.nextPosition
  {
    AlignsWithinSpelling(QueryAt(w, p.matched), m.entry.syllablePath, p.matched, 0, false, OutcomeOf(m));
  }

  /** An extended reading cannot become an exact spelling by appending tokens. */
  lemma StaysExtended(w: Problem, p: Path, m: Match)
    requires LegalPath(w, p) && Expands(w, p, m) && p.matched <= |w.compact| && Extended(w, p)
    ensures m.nextPosition <= |w.compact| && Extended(w, Child(w, p, m))
  {
    ChildIsLegal(w, p, m);
    var chain :| LegalChain(w, chain) && PathOf(w, chain) == p;
    SpellsEnough(w, chain);
    EdgeSpellsEnough(w, p, m);
    SpellingJoins(p.pinyinPath, m.entry.syllablePath);
    var front, more := Spelling(p.pinyinPath), Spelling(m.entry.syllablePath);
    if front + more == w.compact[..m.nextPosition] {
      FrontSpells(front, more, w.compact, p.matched, m.nextPosition);
      assert false;
    }
  }

  /** The letters are spelled out in full by the candidate's syllables. */
  predicate IsExact(w: Problem, c: Candidate) {
    Spelling(c.pinyinPath) == w.compact
  }

  ghost predicate AllExact(w: Problem, emitted: seq<Candidate>) {
    forall i :: 0 <= i < |emitted| ==> IsExact(w, emitted[i])
  }

  ghost predicate ExactFirst(w: Problem, emitted: seq<Candidate>) {
    forall i, j :: 0 <= i < j < |emitted| && IsExact(w, emitted[j]) ==> IsExact(w, emitted[i])
  }

  ghost predicate ItemExtended(w: Problem, item: Item) {
    item.path.matched <= |w.compact| && Extended(w, item.path)
  }

  /** While the letters spell complete syllables nothing is lazy, and the tier is the spelling. */
  ghost predicate TierOk(w: Problem, item: Item) {
    item.path.matched <= |w.compact| && item.rest.None? && item.priority.tier == if Extended(w, item.path) then 1 else 0
  }

  ghost predicate RootExtended(w: Problem, m: Match) {
    RootShape(w, m) && m.nextPosition <= |w.compact| && Extended(w, RootPath(w, m))
  }

  /** Once an extended reading has been emitted, only extended readings are left. */
  ghost predicate TiersAre(w: Problem, frontier: seq<Item>, deferred: seq<Match>, emitted: seq<Candidate>) {
    && (forall x :: x in frontier ==> TierOk(w, x))
    && (forall m :: m in deferred ==> RootExtended(w, m))
    && ExactFirst(w, emitted) && (!AllExact(w, emitted) ==> forall x :: x in frontier ==> ItemExtended(w, x))
  }

  /** The heap's head: no item is in a lesser tier. */
  ghost predicate IsHead(frontier: seq<Item>, i: nat) {
    i < |frontier| && forall j :: 0 <= j < |frontier| ==> frontier[i].priority.tier <= frontier[j].priority.tier
  }

  /** The least tier is known: nothing unextended waits behind an extended head. */
  lemma LeastTier(w: Problem, frontier: seq<Item>, deferred: seq<Match>, emitted: seq<Candidate>, i: nat)
    requires TiersAre(w, frontier, deferred, emitted) && IsHead(frontier, i)
    ensures ItemExtended(w, frontier[i]) ==> forall x :: x in frontier ==> ItemExtended(w, x)
    ensures !ItemExtended(w, frontier[i]) ==> AllExact(w, emitted)
  {
    assert frontier[i] in frontier;
    forall x | x in frontier && ItemExtended(w, frontier[i]) ensures ItemExtended(w, x) {
      var j :| 0 <= j < |frontier| && frontier[j] == x;
    }
  }

  /** Deferred roots enter behind an extended head. */
  lemma TiersWithRoot(w: Problem, frontier: seq<Item>, deferred: seq<Match>, emitted: seq<Candidate>, item: Item)
    requires deferred != [] && RootShape(w, deferred[0]) && item.path == RootPath(w, deferred[0]) && TierOk(w, item)
    ensures TiersAre(w, frontier, deferred, emitted) ==> TiersAre(w, frontier + [item], deferred[1..], emitted)
  {
    assert deferred[0] in deferred;
  }

  /** Expanding the head: what it emits and what it pushes keep exact readings first. */
  lemma TiersVisit(w: Problem, frontier: seq<Item>, deferred: seq<Match>, emitted: seq<Candidate>, i: nat, pushed: seq<Item>, emitted': seq<Candidate>)
    requires i < |frontier|
    requires TierOk(w, frontier[i]) ==> forall j :: 0 <= j < |pushed| ==> TierOk(w, pushed[j]) && (ItemExtended(w, frontier[i]) ==> ItemExtended(w, pushed[j]))
    requires emitted' == emitted || (frontier[i].path.matched == |w.compact| && emitted' == emitted + [CandidateOf(w, frontier[i].path)])
    ensures TiersAre(w, frontier, deferred, emitted) && IsHead(frontier, i) ==> TiersAre(w, Without(frontier, i) + pushed, deferred, emitted')
  {
    hide TierOk, RootExtended, ItemExtended;
    if TiersAre(w, frontier, deferred, emitted) && IsHead(frontier, i) {
      assert frontier[i] in frontier;
      LeastTier(w, frontier, deferred, emitted, i);
      var rest := Without(frontier, i);
      forall x | x in rest + pushed ensures x in frontier || x in pushed {}
      if emitted' != emitted { EmittedTier(w, frontier[i]); }
    }
  }

  lemma EmittedTier(w: Problem, item: Item)
    requires item.path.matched == |w.compact|
    ensures IsExact(w, CandidateOf(w, item.path)) <==> !ItemExtended(w, item)
  {
    assert w.compact[..|w.compact|] == w.compact;
  }

  lemma TiersCut(w: Problem, frontier: seq<Item>, deferred: seq<Match>, emitted: seq<Candidate>, i: nat)
    requires TiersAre(w, frontier, deferred, emitted) && i < |frontier|
    ensures TiersAre(w, Without(frontier, i), deferred, emitted) && frontier[i].rest.None?
  {
    assert frontier[i] in frontier;
  }

  /** Exact paths spell what they match, so an exact run emits nothing else. */
  lemma {:induction false} ExactAlignsSpells(q: Query, syllables: seq<string>, position: nat, shorthand: nat, incomplete: bool, o: Outcome)
    requires q.exactOnly && Aligns(q, syllables, position, shorthand, incomplete, o) && position <= |q.raw|
    ensures o.position == position + |Spelling(syllables)| <= |q.raw|
    ensures q.raw[position..o.position] == Spelling(syllables)
    decreases |syllables|
  {
    if syllables != [] {
      var next := position + |syllables[0]|;
      ExactAlignsSpells(q, syllables[1..], next, shorthand, incomplete, o);
      assert q.raw[position..o.position] == q.raw[position..next] + q.raw[next..o.position];
    }
  }

  lemma {:induction false} ExactChainSpells(w: Problem, chain: seq<Match>)
    requires w.exactOnly && LegalChain(w, chain)
    ensures var p := PathOf(w, chain); p.matched <= |w.compact| && Spelling(p.pinyinPath) == w.compact[..p.matched]
  {
    var m := chain[|chain| - 1];
    if |chain| == 1 {
      ExactAlignsSpells(QueryAt(w, 0), m.entry.syllablePath, 0, 0, false, OutcomeOf(m));
      assert w.compact[0..m.nextPosition] == w.compact[..m.nextPosition];
    } else {
      var front := chain[..|chain| - 1];
      ExactChainSpells(w, front);
      var p := PathOf(w, front);
      ExactAlignsSpells(QueryAt(w, p.matched), m.entry.syllablePath, p.matched, 0, false, OutcomeOf(m));
      SpellingJoins(p.pinyinPath, m.entry.syllablePath);
      assert w.compact[..p.matched] + w.compact[p.matched..m.nextPosition] == w.compact[..m.nextPosition];
    }
  }

  lemma ExactRunIsExact(w: Problem, norm: string -> string, seen: set<(string, nat)>, emitted: seq<Candidate>)
    requires w.exactOnly && ExactlyWholePaths(w, norm, seen, emitted)
    ensures AllExact(w, emitted)
  {
    forall i | 0 <= i < |emitted| ensures IsExact(w, emitted[i]) {
      assert IsWhole(w, emitted[i]);
      var p :| WholePath(w, p) && emitted[i] == CandidateOf(w, p);
      var chain :| LegalChain(w, chain) && PathOf(w, chain) == p;
      ExactChainSpells(w, chain);
      assert w.compact[..|w.compact|] == w.compact;
    }
  }

  lemma ExactThenRest(w: Problem, first: seq<Candidate>, rest: seq<Candidate>)
    requires AllExact(w.(exactOnly := true), first) && ExactFirst(w, rest)
    ensures ExactFirst(w, first + rest)
  {
    var all := first + rest;
    forall i, j | 0 <= i < j < |all| && IsExact(w, all[j]) ensures IsExact(w, all[i]) {
      if i < |first| {
        assert IsExact(w.(exactOnly := true), first[i]);
      } else {
        assert all[i] == rest[i - |first|] && all[j] == rest[j - |first|];
      }
    }
  }

  function Times(counts: map<int, nat>, id: int): nat {
    if id in counts then counts[id] else 0
  }

  /** A queued round that no longer matches the emission counters. */
  ghost function StaleOf(groups: map<int, nat>, byGroup: map<int, nat>, byRoot: map<int, nat>): Item -> nat {
    (item: Item) =>
      if item.path.tokenPath != [] && item.path.tokenPath[0] in groups
         && item.priority.tier == Times(byGroup, groups[item.path.tokenPath[0]]) / CHINESE_PAGE_SIZE
         && item.priority.rootRound == Times(byRoot, item.path.tokenPath[0]) / CHINESE_PAGE_SIZE
      then 0 else 1
  }

  /** The tie-breaking tuples of the source as ranks; only their consistency matters here. */
  datatype Order = Order(rank: (Path, int) -> int, suffixRank: Match -> int, parentSuffixRank: (Path, Match) -> int, staticRank: Match -> int)

  class Cursor {
    const w: Problem
    const matcher: PartialPinyinMatcher
    const exactSpelling: bool                    // the letters spell complete syllables
    const hints: map<int, nat>                   // root tokens of already scored phrases
    const order: Order
    const norm: string -> string
    ghost const seen: set<(string, nat)>

    var frontier: seq<Item>
    var deferred: seq<Match>
    var serial: nat
    var visited: set<Key>
    var groups: map<int, nat>
    var byGroup: map<int, nat>
    var byRoot: map<int, nat>
    var suffixSeeds: map<(nat, bool), seq<Match>>
    var existing: set<(string, nat)>
    var emitted: seq<Candidate>
    ghost var processed: set<Path>

    constructor (w: Problem, matcher: PartialPinyinMatcher, exactSpelling: bool, hints: map<int, nat>, order: Order,
                 norm: string -> string, seen: set<(string, nat)>)
      requires matcher.Valid() && matcher.entries == w.entries && ValidProblem(w) && TextDetermined(w)
      requires w.exactOnly ==> exactSpelling
      ensures Valid() && Caches() && this.w == w && this.norm == norm && this.seen == seen
      ensures this.exactSpelling == exactSpelling && this.hints == hints
      ensures frontier == [] && deferred == [] && visited == {} && processed == {} && emitted == [] && existing == seen
    {
      this.w, this.matcher, this.exactSpelling, this.hints := w, matcher, exactSpelling, hints;
      this.order, this.norm, this.seen := order, norm, seen;
      frontier, deferred, serial, visited, groups, byGroup, byRoot := [], [], 0, {}, map[], map[], map[];
      suffixSeeds, existing, emitted, processed := map[], seen, [], {};
    }

    ghost predicate Valid() {
      && matcher.Valid() && matcher.entries == w.entries && ValidProblem(w) && TextDetermined(w)
      && (w.exactOnly ==> exactSpelling)
    }

    /** Round-robin over root groups, used for unfinished input without scored phrases. */
    predicate Grouped() {
      !exactSpelling && hints == map[]
    }

    ghost predicate Caches()
      reads this
    {
      forall k :: k in suffixSeeds ==> k.0 < |w.compact| && SeedsFor(w, k.0, k.1, suffixSeeds[k])
    }

    ghost predicate Inv()
      reads this
    {
      && Valid() && Caches() && (deferred != [] ==> exactSpelling)
      && (Grouped() ==> forall m :: RootAt(w, m) ==> m.entry.tokenPath[0] in groups)
      && Lists(w, processed, frontier, deferred, visited)
      && EmissionOk(w, norm, seen, processed, existing, emitted)
    }

    /** While the letters spell complete syllables, exact readings come first. */
    ghost predicate Tiers()
      reads this
    {
      exactSpelling ==> TiersAre(w, frontier, deferred, emitted)
    }

    /** A legal path has a first token, and in grouped mode that token has a group. */
    lemma LegalPathGroup(p: Path)
      requires LegalPath(w, p)
      requires Grouped() ==> forall m :: RootAt(w, m) ==> m.entry.tokenPath[0] in groups
      ensures p.tokenPath != [] && p.matched <= |w.compact| && Fits(p)
      ensures Grouped() ==> p.tokenPath[0] in groups
    {
      var chain :| LegalChain(w, chain) && PathOf(w, chain) == p;
      LegalPathShape(w, chain);
    }

    ghost function Work(): nat
      reads this
    {
      Total(WorkOf(w), frontier) + |deferred|
    }

    ghost function Stale(): nat
      reads this
    {
      if Grouped() then Total(StaleOf(groups, byGroup, byRoot), frontier) else 0
    }

    /** The walk has come closer to its end. */
    twostate predicate Progress()
      reads this
    {
      || |Universe(w) - visited| < old(|Universe(w) - visited|)
      || (|Universe(w) - visited| == old(|Universe(w) - visited|)
          && (Work() < old(Work()) || (Work() == old(Work()) && Stale() < old(Stale()))))
    }

    function QueuePriority(path: Path, staticRank: int): Priority
      requires path.matched <= |w.compact| && path.tokenPath != []
      requires Grouped() ==> path.tokenPath[0] in groups
      reads this
    {
      var root := path.tokenPath[0];
      if exactSpelling then Priority(if Extended(w, path) then 1 else 0, 0, 0, order.rank(path, staticRank))
      else if hints != map[] then Priority(if root in hints then hints[root] else |hints|, 0, 0, order.rank(path, staticRank))
      else Priority(Times(byGroup, groups[root]) / CHINESE_PAGE_SIZE, groups[root],
                    Times(byRoot, root) / CHINESE_PAGE_SIZE, order.rank(path, staticRank))
    }

    /** Scan one kind of suffix once per position, then reuse it. */
    method OrderedSuffixes(position: nat, short: bool) returns (seeds: seq<Match>)
      requires Valid() && Caches() && position < |w.compact| && !w.exactOnly
      modifies this`suffixSeeds
      ensures Caches() && SeedsFor(w, position, short, seeds)
    {
      if (position, short) in suffixSeeds {
        return suffixSeeds[(position, short)];
      }
      var result, unsorted := matcher.NeuralMatches(QueryAt(w, position).(includeDescendants := !short), true);
      ScanIsComplete(w, position, short, result);
      var found := Filter(SeedFilter(w, position, short), result);
      SortedSeeds(w, position, short, found, order.suffixRank);
      seeds := CooperativeSorted(found, ByInt(order.suffixRank));
      suffixSeeds := suffixSeeds[(position, short) := seeds];
    }

    /** The shared order serves every parent of the position, unless averaging the score
        over different token counts can reorder it. */
    method ParentSuffixes(parent: Path, short: bool) returns (seeds: seq<Match>)
      requires Valid() && Caches() && parent.matched < |w.compact| && !w.exactOnly
      modifies this`suffixSeeds
      ensures Caches() && SeedsFor(w, parent.matched, short, seeds)
    {
      seeds := OrderedSuffixes(parent.matched, short);
      var offset := 1;
      while offset < |seeds|
        invariant SeedsFor(w, parent.matched, short, seeds)
        invariant 1 <= offset
      {
        if |seeds[offset].entry.tokenPath| != |seeds[offset - 1].entry.tokenPath| {
          var byParent := (m: Match) => order.parentSuffixRank(parent, m);
          SortedSeeds(w, parent.matched, short, seeds, byParent);
          seeds := CooperativeSorted(seeds, ByInt(byParent));
          return;
        }
        offset := offset + 1;
      }
    }

    method FirstFit(parent: Path, seeds: seq<Match>, start: nat) returns (offset: nat)
      requires start <= |seeds|
      requires forall j :: 0 <= j < |seeds| ==> EdgeAt(w, parent.matched, seeds[j])
      ensures start <= offset <= |seeds|
      ensures offset < |seeds| ==> Expands(w, parent, seeds[offset])
      ensures forall j :: start <= j < offset ==> !Expands(w, parent, seeds[j])
    {
      offset := start;
      while offset < |seeds|
        invariant start <= offset <= |seeds|
        invariant forall j :: start <= j < offset ==> !Expands(w, parent, seeds[j])
      {
        if Fits(Child(w, parent, seeds[offset])) { return; }
        offset := offset + 1;
      }
    }

    /** Find the next sibling that fits; a short pass that has run out continues with the
        remaining suffixes. The head is the seed just before the returned remainder. */
    method FindHead(r: Remainder) returns (rest: Option<Remainder>)
      requires Valid() && Caches() && RemainderOk(w, r) && !w.exactOnly && r.parent.tokenPath != []
      modifies this`suffixSeeds
      ensures Caches()
      ensures rest.None? ==> forall k :: !Promises(w, r, k)
      ensures rest.Some? ==> Heads(w, r, rest.value) && RemainderOk(w, rest.value) && RemainderWork(w, rest.value) < RemainderWork(w, r)
    {
      hide IsBest, WellFormed, RowsHold, LegalPath;
      if |r.parent.tokenPath| >= MAX_MODEL_TOKENS { return None; }
      var offset := FirstFit(r.parent, r.seeds, r.start);
      if offset < |r.seeds| {
        return Some(r.(start := offset + 1));
      }
      if !r.unextended { return None; }
      var tail := ParentSuffixes(r.parent, false);
      offset := FirstFit(r.parent, tail, 0);
      TailCovers(w, r, tail, offset);
      if offset == |tail| { return None; }
      rest := Some(Remainder(r.parent, tail, offset + 1, r.serialBase, false));
    }

    /** Push the head, carrying the rest behind it. */
    method PushChildHead(r: Remainder) returns (ghost pushed: seq<Item>)
      requires Valid() && Caches() && RemainderOk(w, r) && !w.exactOnly && r.parent.tokenPath != []
      requires Grouped() ==> r.parent.tokenPath[0] in groups
      modifies this`frontier, this`suffixSeeds
      ensures Caches() && frontier == old(frontier) + pushed
      ensures forall i :: 0 <= i < |pushed| ==> ItemOk(w, pushed[i])
      ensures forall k :: Promises(w, r, k) ==> Waiting(w, pushed, k)
      ensures Total(WorkOf(w), pushed) <= RemainderWork(w, r)
    {
      hide IsBest, LegalPath, Represented;
      pushed := [];
      var rest := FindHead(r);
      if rest.Some? {
        var m := rest.value.seeds[rest.value.start - 1];
        var child := Child(w, r.parent, m);
        ChildIsLegal(w, r.parent, m);
        var item := Item(QueuePriority(child, 0), r.serialBase + rest.value.start - 1, child, 0, rest);
        HeadCovers(w, r, rest.value, item);
        TotalOne(WorkOf(w), item);
        pushed := [item];
        frontier := frontier + [item];
      }
    }

    /** The heap's least item. */
    method Least() returns (best: nat)
      requires frontier != []
      ensures IsHead(frontier, best)
    {
      best := 0;
      for j := 1 to |frontier|
        invariant best < |frontier|
        invariant forall i :: 0 <= i < j ==> frontier[best].priority.tier <= frontier[i].priority.tier
      {
        if ItemLess(frontier[j], frontier[best]) { best := j; }
      }
    }

    /** Only extended readings are left: give the deferred roots their heap entries. */
    method MaterializeDeferred()
      requires Inv() && exactSpelling
      modifies this`frontier, this`deferred, this`serial
      ensures Inv() && deferred == [] && Work() == old(Work())
      ensures |frontier| == |old(frontier)| + |old(deferred)|
      ensures old(Tiers()) ==> Tiers()
    {
      hide IsBest, EdgeAt, NothingLost, Represented, EmissionOk, ItemOk, TiersAre, Universe, SeedsFor, WellFormed, RowsHold;
      while deferred != []
        invariant old(Tiers()) ==> Tiers()
        invariant Inv() && Work() == old(Work())
        invariant |frontier| + |deferred| == |old(frontier)| + |old(deferred)|
        decreases |deferred|
      {
        var d := deferred[0];
        assert d in deferred;
        RootIsLegal(w, d);
        var path := RootPath(w, d);
        var item := Item(QueuePriority(path, order.staticRank(d)), serial, path, order.staticRank(d), None);
        TiersWithRoot(w, frontier, deferred, emitted, item);
        DeferredBecomesItem(w, processed, frontier, deferred, visited, item);
        TotalAppend(WorkOf(w), frontier, [item]);
        TotalOne(WorkOf(w), item);
        frontier := frontier + [item];
        deferred := deferred[1..];
        serial := serial + 1;
      }
    }

    /** Whether a popped item's round is out of date. */
    predicate IsStale(item: Item)
      requires Grouped() ==> item.path.tokenPath != [] && item.path.tokenPath[0] in groups
      reads this
    {
      Grouped() && (item.priority.tier != Times(byGroup, groups[item.path.tokenPath[0]]) / CHINESE_PAGE_SIZE
                    || item.priority.rootRound != Times(byRoot, item.path.tokenPath[0]) / CHINESE_PAGE_SIZE)
    }

    /** A stale item goes back with its current priority, siblings and all. */
    method Requeue(i: nat)
      requires Inv() && i < |frontier|
      requires frontier[i].path.tokenPath != [] && frontier[i].path.matched <= |w.compact|
      requires Grouped() ==> frontier[i].path.tokenPath[0] in groups
      requires IsStale(frontier[i])
      modifies this`frontier, this`serial
      ensures Inv() && Work() == old(Work()) && Stale() < old(Stale())
    {
      hide IsBest, EdgeAt, NothingLost, Represented, EmissionOk, ItemOk, Promises, Holds, Waiting, Total, RootAt, SeedsFor,
           Universe, WellFormed, RowsHold;
      var item := frontier[i];
      var again := item.(priority := QueuePriority(item.path, item.staticRank), serial := serial);
      ItemsAreLegal(w, processed, frontier, deferred, visited, i);
      SameItemOk(w, item, again);
      ReplaceItem(w, processed, frontier, i, [again], deferred, visited);
      TotalSwap(StaleOf(groups, byGroup, byRoot), frontier, i, again);
      TotalSwap(WorkOf(w), frontier, i, again);
      frontier := Without(frontier, i) + [again];
      serial := serial + 1;
    }

    /** A state already visited is cut; only its waiting siblings survive. */
    method CutVisited(i: nat)
      requires Inv() && i < |frontier| && KeyOf(frontier[i].path) in visited
      modifies this`frontier, this`suffixSeeds
      ensures Inv() && Work() < old(Work())
      ensures old(Tiers()) ==> Tiers()
    {
      hide IsBest, EdgeAt, NothingLost, Represented, EmissionOk, Promises, ItemOk, Holds, Waiting, LegalPath, RootAt, SeedsFor,
           Universe, Total, RemainderOk, WellFormed, RowsHold, TiersAre;
      var item := frontier[i];
      ghost var before := frontier;
      ItemsAreLegal(w, processed, frontier, deferred, visited, i);
      TotalWithout(WorkOf(w), frontier, i);
      if exactSpelling && Tiers() { TiersCut(w, frontier, deferred, emitted, i); }
      frontier := Without(frontier, i);
      ghost var pushed: seq<Item> := [];
      if item.rest.Some? {
        ItemRemainder(w, item);
        LegalPathGroup(item.rest.value.parent);
        pushed := PushChildHead(item.rest.value);
      }
      VisitedHolds(w, item, pushed, visited);
      assert frontier == Without(before, i) + pushed;
      assert pushed == [] ==> frontier == Without(before, i);
      ReplaceItem(w, processed, before, i, pushed, deferred, visited);
      TotalAppend(WorkOf(w), Without(before, i), pushed);
    }

    /** Yield a whole-input path unless its identity is already known. */
    method Emit(path: Path)
      requires Valid() && path.matched == |w.compact| && path.tokenPath != []
      requires EmissionOk(w, norm, seen, processed, existing, emitted)
      requires Grouped() ==> path.tokenPath[0] in groups
      modifies this`existing, this`emitted, this`byRoot, this`byGroup
      ensures EmissionOk(w, norm, seen, processed + {path}, existing, emitted)
      ensures emitted == old(emitted) || emitted == old(emitted) + [CandidateOf(w, path)]
    {
      hide EmissionOk;
      var c := CandidateOf(w, path);
      Emits(w, norm, seen, processed, existing, emitted, path);
      if IdentityOf(norm, c) !in existing {
        existing := existing + {IdentityOf(norm, c)};
        if Grouped() {
          var root := path.tokenPath[0];
          byRoot := byRoot[root := Times(byRoot, root) + 1];
          byGroup := byGroup[groups[root] := Times(byGroup, groups[root]) + 1];
        }
        emitted := emitted + [c];
      }
    }

    /** Complete spellings: push every edge of the path at once. */
    method PushEdges(path: Path) returns (ghost pushed: seq<Item>)
      requires Valid() && LegalPath(w, path) && path.matched < |w.compact| && path.tokenPath != []
      requires exactSpelling
      modifies this`frontier, this`serial
      ensures frontier == old(frontier) + pushed
      ensures forall j :: 0 <= j < |pushed| ==> ItemOk(w, pushed[j])
      ensures forall m :: Expands(w, path, m) ==> Waiting(w, pushed, KeyOf(Child(w, path, m)))
      ensures forall j :: 0 <= j < |pushed| ==> TierOk(w, pushed[j]) && (Extended(w, path) ==> ItemExtended(w, pushed[j]))
    {
      hide IsBest, LegalPath, Waiting, EdgeWaits, EdgeAt, ItemOk, IsEnumeration, WellFormed, RowsHold, EdgeShape, TierOk, ItemExtended, StableSort,
           MatchLe;
      var result, unsorted := matcher.NeuralMatches(QueryAt(w, path.matched), true);
      DirectQuery(w, path.matched, result);
      var edges := Filter((m: Match) => EdgeShape(w, path.matched, m), result);
      pushed := [];
      for j := 0 to |edges|
        invariant frontier == old(frontier) + pushed
        invariant forall i :: 0 <= i < |pushed| ==> ItemOk(w, pushed[i])
        invariant forall i :: 0 <= i < |pushed| ==> TierOk(w, pushed[i]) && (Extended(w, path) ==> ItemExtended(w, pushed[i]))
        invariant forall i :: 0 <= i < j ==> EdgeWaits(w, path, edges[i], pushed)
      {
        ghost var before := pushed;
        ghost var more := PushEdge(path, edges[j]);
        pushed := pushed + more;
        forall i | 0 <= i < j ensures EdgeWaits(w, path, edges[i], pushed) {
          EdgeStillWaits(w, path, edges[i], before, more);
        }
        EdgeWaitsBehind(w, path, edges[j], before, more);
      }
      EdgesWait(w, path, edges, pushed);
    }

    method PushEdge(path: Path, m: Match) returns (ghost pushed: seq<Item>)
      requires Valid() && LegalPath(w, path) && path.matched < |w.compact| && path.tokenPath != []
      requires exactSpelling && EdgeAt(w, path.matched, m)
      modifies this`frontier, this`serial
      ensures frontier == old(frontier) + pushed
      ensures forall j :: 0 <= j < |pushed| ==> ItemOk(w, pushed[j])
      ensures EdgeWaits(w, path, m, pushed)
      ensures forall j :: 0 <= j < |pushed| ==> TierOk(w, pushed[j]) && (Extended(w, path) ==> ItemExtended(w, pushed[j]))
    {
      hide IsBest, LegalPath, Waiting;
      pushed := [];
      var child := Child(w, path, m);
      if Fits(child) {
        ChildIsLegal(w, path, m);
        if Extended(w, path) { StaysExtended(w, path, m); }
        var item := Item(QueuePriority(child, 0), serial, child, 0, None);
        WaitingOne(w, item);
        pushed := [item];
        frontier := frontier + [item];
        serial := serial + 1;
      }
    }

    /** Put every child of a path to work, directly or behind a lazy head. */
    method ExpandPath(path: Path) returns (ghost pushed: seq<Item>)
      requires Valid() && Caches() && LegalPath(w, path) && path.tokenPath != [] && path.matched <= |w.compact|
      requires Grouped() ==> path.tokenPath[0] in groups
      modifies this`frontier, this`serial, this`suffixSeeds
      ensures Caches() && frontier == old(frontier) + pushed
      ensures forall j :: 0 <= j < |pushed| ==> ItemOk(w, pushed[j])
      ensures forall m :: Expands(w, path, m) ==> Waiting(w, pushed, KeyOf(Child(w, path, m)))
      ensures exactSpelling ==> forall j :: 0 <= j < |pushed| ==> TierOk(w, pushed[j]) && (Extended(w, path) ==> ItemExtended(w, pushed[j]))
    {
      hide IsBest, LegalPath, Waiting, TierOk, ItemExtended, Extended;
      pushed := [];
      if path.matched == |w.compact| { return; }
      if exactSpelling {
        pushed := PushEdges(path);
      } else {
        var seeds := ParentSuffixes(path, true);
        var all := Remainder(path, seeds, 0, serial, true);
        pushed := PushChildHead(all);
        ShortThenTail(w, all);
        serial := serial + 1;
      }
    }

    /** The heap entries that replace a newly visited item. */
    method PushSuccessors(item: Item) returns (ghost pushed: seq<Item>)
      requires Valid() && Caches() && ItemOk(w, item)
      requires Grouped() ==> forall m :: RootAt(w, m) ==> m.entry.tokenPath[0] in groups
      modifies this`frontier, this`serial, this`suffixSeeds
      ensures Caches() && frontier == old(frontier) + pushed
      ensures forall j :: 0 <= j < |pushed| ==> ItemOk(w, pushed[j])
      ensures item.rest.Some? ==> forall k :: Promises(w, item.rest.value, k) ==> Waiting(w, pushed, k)
      ensures forall m :: Expands(w, item.path, m) ==> Waiting(w, pushed, KeyOf(Child(w, item.path, m)))
      ensures exactSpelling && TierOk(w, item) ==>
                forall j :: 0 <= j < |pushed| ==> TierOk(w, pushed[j]) && (ItemExtended(w, item) ==> ItemExtended(w, pushed[j]))
    {
      hide IsBest, Promises, Waiting, LegalPath, RootAt, RemainderOk, Extended;
      LegalPathGroup(item.path);
      ghost var siblings: seq<Item> := [];
      if item.rest.Some? {
        RemainderParent(w, item.rest.value);
        LegalPathGroup(item.rest.value.parent);
        siblings := PushChildHead(item.rest.value);
      }
      ghost var children := ExpandPath(item.path);
      pushed := siblings + children;
      JoinWaiting(w, siblings, children);
    }

    /** A new state: emit it if it is whole, then its siblings and its children wait. */
    method VisitNew(i: nat)
      requires Inv() && i < |frontier| && KeyOf(frontier[i].path) !in visited
      modifies this`frontier, this`serial, this`suffixSeeds, this`visited, this`processed
      modifies this`existing, this`emitted, this`byRoot, this`byGroup
      ensures Inv() && |Universe(w) - visited| < |Universe(w) - old(visited)|
      ensures old(Tiers()) && IsHead(old(frontier), i) ==> Tiers()
    {
      hide IsBest, RootAt, NothingLost, Represented, EmissionOk, Promises, Waiting, Universe, LegalPath, RemainderOk, EdgeShape,
           ItemOk, SeedsFor, WellFormed, RowsHold, Expands, TiersAre, TierOk, ItemExtended, IsHead, Without, Lists, ValidProblem,
           TextDetermined, Extended;
      var item := frontier[i];
      ghost var before, shown := frontier, emitted;
      ItemsAreLegal(w, processed, frontier, deferred, visited, i);
      LegalPathGroup(item.path);
      if item.path.matched == |w.compact| {
        Emit(item.path);
      } else {
        NotWhole(w, norm, seen, processed, existing, emitted, item.path);
      }
      frontier := Without(frontier, i);
      ghost var pushed := PushSuccessors(item);
      VisitItem(w, processed, before, i, pushed, deferred, visited);
      if exactSpelling { TiersVisit(w, before, deferred, shown, i, pushed, emitted); }
      LegalInUniverse(w, item.path);
      SmallerGap(Universe(w), visited, KeyOf(item.path));
      visited := visited + {KeyOf(item.path)};
      processed := processed + {item.path};
    }

    method Step()
      requires Inv() && (frontier != [] || deferred != [])
      modifies this`frontier, this`serial, this`suffixSeeds, this`visited, this`processed, this`deferred
      modifies this`existing, this`emitted, this`byRoot, this`byGroup
      ensures Inv() && Progress()
      ensures old(Tiers()) ==> Tiers()
    {
      hide Lists, EmissionOk, Universe, Total, LegalPath, RootAt, TiersAre;
      if deferred != [] {
        var extendedOnly := frontier == [];
        if !extendedOnly {
          var head := Least();
          extendedOnly := frontier[head].priority.tier != 0;
        }
        if extendedOnly { MaterializeDeferred(); }
      }
      var i := Least();
      ItemsAreLegal(w, processed, frontier, deferred, visited, i);
      LegalPathGroup(frontier[i].path);
      if IsStale(frontier[i]) {
        Requeue(i);
      } else if KeyOf(frontier[i].path) in visited {
        CutVisited(i);
      } else {
        VisitNew(i);
      }
    }

    /** Split the plan into heap roots and deferred roots; every root lands in one of them. */
    method SplitRoots() returns (roots: seq<Match>)
      requires Valid() && deferred == []
      modifies this`deferred
      ensures forall m :: m in roots || m in deferred <==> RootAt(w, m)
      ensures deferred != [] ==> exactSpelling
      ensures forall m :: m in deferred ==> RootExtended(w, m)
    {
      hide IsBest, StableSort, MatchLe;
      var plan, unsorted := matcher.NeuralMatches(QueryAt(w, 0), true);
      roots := [];
      for n := 0 to |plan|
        invariant forall m :: m in roots || m in deferred <==> m in plan[..n] && RootShape(w, m)
        invariant deferred != [] ==> exactSpelling
        invariant forall m :: m in deferred ==> RootExtended(w, m)
      {
        var m := plan[n];
        if RootShape(w, m) {
          RootMatchedLetters(w, plan, m);
          if exactSpelling && Extended(w, RootPath(w, m)) {
            deferred := deferred + [m];
          } else {
            roots := roots + [m];
          }
        }
        assert plan[..n + 1] == plan[..n] + [m];
      }
      assert plan[..|plan|] == plan;
      PlanIsRoots(w, plan);
    }

    /** Give each nearby run of root tokens one group, in priority order. */
    method GroupRoots(roots: seq<Match>)
      requires forall m :: m in roots ==> RootShape(w, m)
      modifies this`groups
      ensures forall m :: m in roots ==> m.entry.tokenPath != [] && m.entry.tokenPath[0] in groups
    {
      var byRank := (m: Match) => if RootShape(w, m) then order.rank(RootPath(w, m), order.staticRank(m)) else 0;
      hide RootShape, RootPath, StableSort;
      StableSortOrders(ByInt(byRank), roots);
      var ordered := CooperativeSorted(roots, ByInt(byRank));
      groups := map[];
      for n := 0 to |ordered|
        invariant forall j :: 0 <= j < n ==> ordered[j].entry.tokenPath != [] && ordered[j].entry.tokenPath[0] in groups
      {
        assert ordered[n] in roots;
        var root := ordered[n].entry.tokenPath[0];
        if root !in groups {
          groups := groups[root := |groups| / CHINESE_PAGE_SIZE];
        }
      }
    }

    method PushRoots(roots: seq<Match>)
      requires Valid() && Caches() && frontier == [] && visited == {} && processed == {}
      requires existing == seen && emitted == []
      requires forall m :: m in roots || m in deferred <==> RootAt(w, m)
      requires deferred != [] ==> exactSpelling
      requires Grouped() ==> forall m :: m in roots ==> m.entry.tokenPath != [] && m.entry.tokenPath[0] in groups
      requires forall m :: m in deferred ==> RootExtended(w, m)
      modifies this`frontier, this`serial
      ensures Inv() && Tiers()
    {
      hide IsBest, LegalPath, WellFormed, RowsHold, Lists, EmissionOk, SeedsFor;
      serial := 0;
      NothingEmitted(w, norm, seen);
      for n := 0 to |roots|
        invariant |frontier| == n
        invariant forall i :: 0 <= i < n ==> RootShape(w, roots[i]) && frontier[i].path == RootPath(w, roots[i]) && ItemOk(w, frontier[i])
        invariant exactSpelling ==> forall i :: 0 <= i < n ==> TierOk(w, frontier[i])
      {
        var m := roots[n];
        assert m in roots;
        RootIsLegal(w, m);
        var path := RootPath(w, m);
        frontier := frontier + [Item(QueuePriority(path, order.staticRank(m)), serial, path, order.staticRank(m), None)];
        serial := serial + 1;
      }
      RootsWait(w, roots, deferred, frontier);
      assert exactSpelling ==> forall x :: x in frontier ==> TierOk(w, x);
    }

    /** Run the cursor to its end. */
    method Run() returns (result: seq<Candidate>)
      requires Valid() && Caches() && frontier == [] && deferred == [] && visited == {} && processed == {}
      requires existing == seen && emitted == []
      modifies this
      ensures ExactlyWholePaths(w, norm, seen, result) && (exactSpelling ==> ExactFirst(w, result))
    {
      hide RootAt, Lists, EmissionOk, Universe, Total, LegalPath, ExactlyWholePaths, SeedsFor, RootExtended, TierOk,
           ItemExtended, ExactFirst;
      var roots := SplitRoots();
      RootShapes(w, roots, deferred);
      if Grouped() {
        GroupRoots(roots);
      }
      PushRoots(roots);
      while frontier != [] || deferred != []
        invariant Inv() && Tiers()
        decreases |Universe(w) - visited|, Work(), Stale()
      {
        Step();
      }
      DrainedLists(w, processed, frontier, deferred, visited);
      DrainedMeansExact(w, norm, seen, processed, visited, existing, emitted);
      result := emitted;
    }
  }

  lemma DrainedLists(w: Problem, processed: set<Path>, frontier: seq<Item>, deferred: seq<Match>, visited: set<Key>)
    requires Lists(w, processed, frontier, deferred, visited) && frontier == [] && deferred == []
    ensures Represented(w, processed, visited) && NothingLost(w, processed, [], [], visited)
  {}

  lemma RootShapes(w: Problem, roots: seq<Match>, deferred: seq<Match>)
    requires forall m :: m in roots || m in deferred <==> RootAt(w, m)
    ensures forall m :: m in roots ==> RootAt(w, m) && RootShape(w, m) && m.entry.tokenPath != []
  {}

  /** The raw position stored in the plan gives back the matched letter count. */
  lemma RootMatchedLetters(w: Problem, plan: seq<Match>, m: Match)
    requires ValidProblem(w) && IsEnumeration(QueryAt(w, 0), w.entries, plan) && m in plan
    ensures m.nextPosition <= |w.compact|
    ensures |Letters(w.raw[..RawPosition(w.raw, m.nextPosition)])| == m.nextPosition
  {
    var i :| 0 <= i < |plan| && plan[i] == m;
    AlignsMonotone(QueryAt(w, 0), m.entry.syllablePath, 0, 0, false, OutcomeOf(m));
    RawPositionInverts(w.raw, m.nextPosition);
  }

  lemma PlanIsRoots(w: Problem, plan: seq<Match>)
    requires IsEnumeration(QueryAt(w, 0), w.entries, plan)
    ensures forall m :: m in plan && RootShape(w, m) <==> RootAt(w, m)
  {
    hide IsBest;
    forall m | RootAt(w, m) ensures m in plan {
      BestIsListedOnce(QueryAt(w, 0), w.entries, plan, m);
    }
  }

  lemma NothingEmitted(w: Problem, norm: string -> string, seen: set<(string, nat)>)
    ensures EmissionOk(w, norm, seen, {}, seen, [])
  {}

  lemma RootsWait(w: Problem, roots: seq<Match>, deferred: seq<Match>, frontier: seq<Item>)
    requires forall m :: m in roots || m in deferred <==> RootAt(w, m)
    requires |frontier| == |roots|
    requires forall i :: 0 <= i < |roots| ==> RootShape(w, roots[i]) && frontier[i].path == RootPath(w, roots[i]) && ItemOk(w, frontier[i])
    ensures Lists(w, {}, frontier, deferred, {})
  {
    hide IsBest;
    forall m | RootAt(w, m) ensures Awaited(w, frontier, deferred, {}, KeyOf(RootPath(w, m))) {
      if m in roots {
        var i :| 0 <= i < |roots| && roots[i] == m;
        assert Holds(w, frontier[i], KeyOf(RootPath(w, m)));
      }
    }
  }

  lemma ItemsAreLegal(w: Problem, processed: set<Path>, frontier: seq<Item>, deferred: seq<Match>, visited: set<Key>, i: nat)
    requires Lists(w, processed, frontier, deferred, visited) && i < |frontier|
    ensures LegalPath(w, frontier[i].path) && ItemOk(w, frontier[i])
  {
    hide LegalPath, NothingLost, Represented;
    assert ItemOk(w, frontier[i]);
  }

  lemma RemainderParent(w: Problem, r: Remainder)
    requires RemainderOk(w, r)
    ensures LegalPath(w, r.parent)
  {}

  lemma SmallerGap(universe: set<Key>, visited: set<Key>, k: Key)
    requires k in universe && k !in visited
    ensures |universe - (visited + {k})| < |universe - visited|
  {
    assert universe - visited == (universe - (visited + {k})) + {k};
  }

  ghost predicate EdgeWaits(w: Problem, path: Path, m: Match, pushed: seq<Item>) {
    Expands(w, path, m) ==> Waiting(w, pushed, KeyOf(Child(w, path, m)))
  }

  lemma EdgeStillWaits(w: Problem, path: Path, m: Match, before: seq<Item>, more: seq<Item>)
    requires EdgeWaits(w, path, m, before)
    ensures EdgeWaits(w, path, m, before + more)
  {
    hide IsBest, Waiting;
    if Expands(w, path, m) { WaitingAppend(w, before, more, KeyOf(Child(w, path, m))); }
  }

  lemma EdgeWaitsBehind(w: Problem, path: Path, m: Match, before: seq<Item>, more: seq<Item>)
    requires EdgeWaits(w, path, m, more)
    ensures EdgeWaits(w, path, m, before + more)
  {
    hide IsBest, Waiting;
    if Expands(w, path, m) { WaitingAppend(w, before, more, KeyOf(Child(w, path, m))); }
  }

  lemma EdgesWait(w: Problem, path: Path, edges: seq<Match>, pushed: seq<Item>)
    requires AllEdges(w, path.matched, edges)
    requires forall i :: 0 <= i < |edges| ==> EdgeWaits(w, path, edges[i], pushed)
    ensures forall m :: Expands(w, path, m) ==> Waiting(w, pushed, KeyOf(Child(w, path, m)))
  {
    hide IsBest, Waiting;
    forall m | Expands(w, path, m) ensures Waiting(w, pushed, KeyOf(Child(w, path, m))) {
      assert m in edges;
      var i :| 0 <= i < |edges| && edges[i] == m;
      assert EdgeWaits(w, path, edges[i], pushed);
    }
  }

  lemma DirectQuery(w: Problem, position: nat, result: seq<Match>)
    requires position < |w.compact| && IsEnumeration(QueryAt(w, position), w.entries, result)
    ensures var edges := Filter((m: Match) => EdgeShape(w, position, m), result);
            AllEdges(w, position, edges) && forall j :: 0 <= j < |edges| ==> EdgeAt(w, position, edges[j])
  {
    DirectIsComplete(w, position, result);
  }

  lemma WaitingOne(w: Problem, item: Item)
    ensures Waiting(w, [item], KeyOf(item.path))
  {
    assert Holds(w, [item][0], KeyOf(item.path));
  }

  lemma JoinWaiting(w: Problem, s: seq<Item>, t: seq<Item>)
    ensures forall k :: Waiting(w, s, k) || Waiting(w, t, k) ==> Waiting(w, s + t, k)
  {
    forall k | Waiting(w, s, k) || Waiting(w, t, k) ensures Waiting(w, s + t, k) {
      WaitingAppend(w, s, t, k);
    }
  }

  /** The short suffixes and the tail behind them are all the children of a path. */
  lemma ShortThenTail(w: Problem, r: Remainder)
    requires SeedsFor(w, r.parent.matched, true, r.seeds) && r.start == 0 && r.unextended
    ensures forall m :: Expands(w, r.parent, m) ==> Promises(w, r, KeyOf(Child(w, r.parent, m)))
  {
    hide IsBest;
    forall m | Expands(w, r.parent, m) ensures Promises(w, r, KeyOf(Child(w, r.parent, m))) {
      if ShortComplete(w.compact, m) {
        assert m in r.seeds;
        var j :| 0 <= j < |r.seeds| && r.seeds[j] == m;
      }
    }
  }

  /** A path that does not spend the input changes nothing about what is emitted. */
  lemma NotWhole(w: Problem, norm: string -> string, seen: set<(string, nat)>, processed: set<Path>,
                 existing: set<(string, nat)>, emitted: seq<Candidate>, p: Path)
    requires EmissionOk(w, norm, seen, processed, existing, emitted) && p.matched != |w.compact|
    ensures EmissionOk(w, norm, seen, processed + {p}, existing, emitted)
  {
    ProducedMore(w, processed, p);
  }

  lemma ProducedMore(w: Problem, processed: set<Path>, p: Path)
    ensures forall c :: Produced(w, processed, c) ==> Produced(w, processed + {p}, c)
    ensures p.matched == |w.compact| ==> Produced(w, processed + {p}, CandidateOf(w, p))
  {
    forall c | Produced(w, processed, c) ensures Produced(w, processed + {p}, c) {
      var q :| q in processed && q.matched == |w.compact| && c == CandidateOf(w, q);
      assert q in processed + {p};
    }
    assert p in processed + {p};
  }

  lemma SameItemOk(w: Problem, item: Item, again: Item)
    requires ItemOk(w, item) && again.path == item.path && again.rest == item.rest
    ensures ItemOk(w, again) && forall k :: Holds(w, item, k) ==> Waiting(w, [again], k)
  {
    hide LegalPath, Promises, RemainderOk;
    forall k | Holds(w, item, k) ensures Waiting(w, [again], k) {
      assert Holds(w, [again][0], k);
    }
  }

  lemma TotalSwap(cost: Item -> nat, s: seq<Item>, i: nat, again: Item)
    requires i < |s|
    ensures Total(cost, Without(s, i) + [again]) == Total(cost, s) - cost(s[i]) + cost(again)
  {
    TotalWithout(cost, s, i);
    TotalAppend(cost, Without(s, i), [again]);
    TotalOne(cost, again);
  }

  lemma ItemRemainder(w: Problem, item: Item)
    requires ItemOk(w, item) && item.rest.Some?
    ensures !w.exactOnly && RemainderOk(w, item.rest.value) && LegalPath(w, item.rest.value.parent)
  {}

  /** Once an item's own path is visited, pushing its siblings keeps everything it held. */
  lemma VisitedHolds(w: Problem, item: Item, pushed: seq<Item>, visited: set<Key>)
    requires KeyOf(item.path) in visited
    requires item.rest.Some? ==> forall k :: Promises(w, item.rest.value, k) ==> Waiting(w, pushed, k)
    ensures forall k :: Holds(w, item, k) ==> k in visited || Waiting(w, pushed, k)
  {
    hide Promises, Waiting;
  }

  lemma TotalOne(cost: Item -> nat, item: Item)
    ensures Total(cost, [item]) == cost(item)
  {
    assert [item][1..] == [];
  }

  /** Nothing that was promised fits the tail before `offset`. */
  lemma TailCovers(w: Problem, r: Remainder, tail: seq<Match>, offset: nat)
    requires RemainderOk(w, r) && r.unextended && SeedsFor(w, r.parent.matched, false, tail) && offset <= |tail|
    requires forall j :: r.start <= j < |r.seeds| ==> !Expands(w, r.parent, r.seeds[j])
    requires forall j :: 0 <= j < offset ==> !Expands(w, r.parent, tail[j])
    ensures forall k :: Promises(w, r, k) ==>
                          exists j :: offset <= j < |tail| && Expands(w, r.parent, tail[j]) && KeyOf(Child(w, r.parent, tail[j])) == k
  {
    forall k | Promises(w, r, k)
      ensures exists j :: offset <= j < |tail| && Expands(w, r.parent, tail[j]) && KeyOf(Child(w, r.parent, tail[j])) == k
    {
      var m :| Expands(w, r.parent, m) && !ShortComplete(w.compact, m) && KeyOf(Child(w, r.parent, m)) == k;
      assert m in tail;
      var j :| 0 <= j < |tail| && tail[j] == m;
    }
  }

  /** `rest` follows a head that fits, and between them they keep every promise of r. */
  ghost predicate Heads(w: Problem, r: Remainder, rest: Remainder) {
    && rest.parent == r.parent && 0 < rest.start <= |rest.seeds|
    && Expands(w, r.parent, rest.seeds[rest.start - 1])
    && forall k :: Promises(w, r, k) ==> KeyOf(Child(w, r.parent, rest.seeds[rest.start - 1])) == k || Promises(w, rest, k)
  }

  lemma HeadCovers(w: Problem, r: Remainder, rest: Remainder, item: Item)
    requires Heads(w, r, rest) && item.rest == Some(rest)
    requires item.path == Child(w, r.parent, rest.seeds[rest.start - 1])
    ensures forall k :: Promises(w, r, k) ==> Waiting(w, [item], k)
  {
    forall k | Promises(w, r, k) ensures Waiting(w, [item], k) {
      assert Holds(w, [item][0], k);
    }
  }

  // ---------------------------------------------------------------------------------
  // The exact prelude and the whole enumeration.

  /** A legal path of complete spellings is a legal path. */
  lemma {:induction false} ExactChainIsLegal(w: Problem, chain: seq<Match>)
    requires !w.exactOnly && LegalChain(w.(exactOnly := true), chain)
    ensures LegalChain(w, chain) && PathOf(w, chain) == PathOf(w.(exactOnly := true), chain)
  {
    hide IsBest;
    var w' := w.(exactOnly := true);
    if |chain| == 1 {
      ExactIsOrdinary(QueryAt(w', 0), chain[0].entry, chain[0], true);
      SameScores(w, chain[0].entry.tokenPath);
    } else {
      var front, m := chain[..|chain| - 1], chain[|chain| - 1];
      ExactChainIsLegal(w, front);
      SameScores(w, m.entry.tokenPath);
      ExactIsOrdinary(QueryAt(w', PathOf(w', front).matched), m.entry, m, true);
    }
  }

  lemma {:induction false} SameScores(w: Problem, tokens: seq<int>)
    ensures TokenScore(w, tokens) == TokenScore(w.(exactOnly := true), tokens)
    ensures tokens != [] ==> RootScore(w, tokens) == RootScore(w.(exactOnly := true), tokens)
  {
    if tokens != [] { SameScores(w, tokens[1..]); }
  }

  lemma ExactPathIsLegal(w: Problem, p: Path)
    requires !w.exactOnly && LegalPath(w.(exactOnly := true), p)
    ensures LegalPath(w, p)
  {
    var chain :| LegalChain(w.(exactOnly := true), chain) && PathOf(w.(exactOnly := true), chain) == p;
    ExactChainIsLegal(w, chain);
  }

  lemma ExactTextDetermined(w: Problem)
    requires !w.exactOnly && TextDetermined(w)
    ensures TextDetermined(w.(exactOnly := true))
  {
    hide LegalPath;
    forall p | LegalPath(w.(exactOnly := true), p) ensures LegalPath(w, p) {
      ExactPathIsLegal(w, p);
    }
  }

  /** The exact run followed by the full run, which skips what the first one emitted. */
  lemma PreludeThenRest(w: Problem, norm: string -> string, seen: set<(string, nat)>, first: seq<Candidate>, rest: seq<Candidate>)
    requires !w.exactOnly && ExactlyWholePaths(w.(exactOnly := true), norm, seen, first)
    requires ExactlyWholePaths(w, norm, seen + Identities(norm, first), rest)
    ensures ExactlyWholePaths(w, norm, seen, first + rest)
  {
    hide LegalPath;
    var all := first + rest;
    forall i | 0 <= i < |all| ensures IsWhole(w, all[i]) && IdentityOf(norm, all[i]) !in seen {
      if i < |first| {
        assert all[i] == first[i] && IsWhole(w.(exactOnly := true), first[i]);
        var p :| WholePath(w.(exactOnly := true), p) && first[i] == CandidateOf(w.(exactOnly := true), p);
        ExactPathIsLegal(w, p);
        assert WholePath(w, p) && all[i] == CandidateOf(w, p);
      } else {
        assert all[i] == rest[i - |first|];
      }
    }
    forall i, j | 0 <= i < j < |all| ensures IdentityOf(norm, all[i]) != IdentityOf(norm, all[j]) {
      if j < |first| {
        assert all[i] == first[i] && all[j] == first[j];
      } else if i < |first| {
        assert all[i] == first[i] && all[j] == rest[j - |first|];
        assert IdentityOf(norm, first[i]) in Identities(norm, first);
      } else {
        assert all[i] == rest[i - |first|] && all[j] == rest[j - |first|];
      }
    }
    IdentitiesAppend(norm, first, rest);
    forall p | WholePath(w, p) ensures IdentityOf(norm, CandidateOf(w, p)) in seen + Identities(norm, all) {
      assert IdentityOf(norm, CandidateOf(w, p)) in seen + Identities(norm, first) + Identities(norm, rest);
    }
  }

  lemma IdentitiesAppend(norm: string -> string, first: seq<Candidate>, rest: seq<Candidate>)
    ensures Identities(norm, first + rest) == Identities(norm, first) + Identities(norm, rest)
  {
    var all := first + rest;
    forall id | id in Identities(norm, first) ensures id in Identities(norm, all) {
      var i :| 0 <= i < |first| && IdentityOf(norm, first[i]) == id;
      assert all[i] == first[i];
    }
    forall id | id in Identities(norm, rest) ensures id in Identities(norm, all) {
      var i :| 0 <= i < |rest| && IdentityOf(norm, rest[i]) == id;
      assert all[|first| + i] == rest[i];
    }
  }

  /** The whole lexical completion of one composition: every identity of a whole-input path
      that is not already seen, exactly once, and nothing else; and when the letters spell
      complete syllables, the readings spelled out in full before all longer ones. */
  method LexicalCompletions(matcher: PartialPinyinMatcher, w: Problem, hints: map<int, nat>, order: Order,
                            norm: string -> string, seen: set<(string, nat)>) returns (result: seq<Candidate>)
    requires matcher.Valid() && matcher.entries == w.entries && ValidProblem(w) && !w.exactOnly && TextDetermined(w)
    ensures ExactlyWholePaths(w, norm, seen, result)
    ensures Segmentable(matcher.syllables, w.compact, |w.compact|) ==> ExactFirst(w, result)
  {
    hide ExactlyWholePaths, LegalPath, IsBest, ExactFirst, AllExact, Segmentable;
    var exactSpelling := matcher.IsCompleteSyllableSequence(w.compact);
    var first: seq<Candidate> := [];
    if exactSpelling && |w.compact| > 1 {
      var exact := w.(exactOnly := true);
      ExactTextDetermined(w);
      var prelude := new Cursor(exact, matcher, exactSpelling, hints, order, norm, seen);
      first := prelude.Run();
      var known := seen + (set i | 0 <= i < |first| :: IdentityOf(norm, first[i]));
      var cursor := new Cursor(w, matcher, exactSpelling, hints, order, norm, known);
      var rest := cursor.Run();
      PreludeThenRest(w, norm, seen, first, rest);
      ExactRunIsExact(exact, norm, seen, first);
      ExactThenRest(w, first, rest);
      result := first + rest;
    } else {
      var cursor := new Cursor(w, matcher, exactSpelling, hints, order, norm, seen);
      result := cursor.Run();
    }
  }

  /** What a walk over some typed keys reads. */
  ghost function ProblemFor(raw: string, entries: set<Entry>, continuationTokens: set<int>,
                            baseline: seq<Option<real>>, contextual: map<int, Option<real>>): Problem {
    Problem(raw, Letters(raw), Boundaries(raw), entries, continuationTokens, baseline, contextual, false)
  }

  /** Lexical completion of any typed keys: nothing for keys that do not parse or hold no letter. */
  method CompletionsFor(matcher: PartialPinyinMatcher, raw: string, continuationTokens: set<int>, baseline: seq<Option<real>>,
                        contextual: map<int, Option<real>>, hints: map<int, nat>, order: Order, norm: string -> string,
                        seen: set<(string, nat)>) returns (result: seq<Candidate>)
    requires matcher.Valid() && TextDetermined(ProblemFor(raw, matcher.entries, continuationTokens, baseline, contextual))
    ensures !Accepted(raw) || Letters(raw) == "" ==> result == []
    ensures Accepted(raw) && Letters(raw) != "" ==>
              ExactlyWholePaths(ProblemFor(raw, matcher.entries, continuationTokens, baseline, contextual), norm, seen, result)
  {
    var parsed := Parse(raw);
    if parsed.None? || parsed.value.compact == "" { return []; }
    var w := Problem(raw, parsed.value.compact, parsed.value.boundaries, matcher.entries, continuationTokens, baseline, contextual, false);
    result := LexicalCompletions(matcher, w, hints, order, norm, seen);
  }
}
