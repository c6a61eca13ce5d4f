/** The neural pinyin matcher (pinyin_partial.py): a memoised, dominance-pruned walk of a
    syllable trie, proved against an alignment relation that mentions neither the trie
    nor the pruning. */
module PinyinMatcher {
  import opened SearchBatches

  /** One indexed pronunciation of a model token path. */
  datatype Entry = Entry(tokenId: int, text: string, syllablePath: seq<string>, tokenPath: seq<int>, coverage: bool)

  datatype Match = Match(entry: Entry, nextPosition: nat, shorthand: nat, incompleteFinal: bool, completionSyllables: nat)

  /** The arguments of one enumeration. */
  datatype Query = Query(raw: string, start: nat, boundaries: set<nat>, exactOnly: bool, includeDescendants: bool)

  // ---------------------------------------------------------------------------------
  // The reference relation: how a syllable path may align with the typed letters.

  /** Where an alignment ends and what it cost. */
  datatype Outcome = Outcome(position: nat, shorthand: nat, incomplete: bool, predicted: nat)

  predicate StartsWith(raw: string, syllable: string, position: nat) {
    position + |syllable| <= |raw| && raw[position..position + |syllable|] == syllable
  }

  predicate CrossesBoundary(boundaries: set<nat>, begin: nat, end: nat) {
    exists b :: b in boundaries && begin < b < end
  }

  /** The whole syllable is typed. */
  predicate TypedInFull(q: Query, syllable: string, position: nat) {
    StartsWith(q.raw, syllable, position) && !CrossesBoundary(q.boundaries, position, position + |syllable|)
  }

  /** Only the initial letter is typed. */
  predicate TypedAsInitial(q: Query, syllable: string, position: nat) {
    && position < |q.raw| && syllable != ""
    && q.raw[position] == syllable[0] && !CrossesBoundary(q.boundaries, position, position + 1)
  }

  /** The rest of the input, at least two letters, is an unfinished spelling. */
  predicate TypedAsUnfinished(q: Query, syllable: string, position: nat) {
    && position <= |q.raw| && 1 < |q.raw| - position < |syllable|
    && syllable[..|q.raw| - position] == q.raw[position..]
    && !CrossesBoundary(q.boundaries, position, |q.raw|)
  }

  /** The syllables that remain, read from a position with a cost so far, may end in o. */
  ghost predicate Aligns(q: Query, syllables: seq<string>, position: nat, shorthand: nat, incomplete: bool, o: Outcome) {
    if syllables == [] then
      o == Outcome(position, shorthand, incomplete, 0)
    else if position >= |q.raw| then
      !incomplete && !q.exactOnly && q.includeDescendants && o == Outcome(position, shorthand, false, |syllables|)
    else
      || (TypedInFull(q, syllables[0], position)
          && Aligns(q, syllables[1..], position + |syllables[0]|, shorthand, incomplete, o))
      || (!q.exactOnly && TypedAsInitial(q, syllables[0], position)
          && Aligns(q, syllables[1..], position + 1, shorthand + 1, incomplete, o))
      || (!q.exactOnly && TypedAsUnfinished(q, syllables[0], position)
          && Aligns(q, syllables[1..], |q.raw|, shorthand, true, o))
  }

  /** An entry is derivable with outcome o. */
  ghost predicate Derives(q: Query, e: Entry, o: Outcome) {
    Aligns(q, e.syllablePath, q.start, 0, false, o) && o.position > q.start
  }

  function OutcomeOf(m: Match): Outcome {
    Outcome(m.nextPosition, m.shorthand, m.incompleteFinal, m.completionSyllables)
  }

  /** Least (predicted syllables, shorthand, incomplete) first. */
  predicate NoWorse(a: Outcome, b: Outcome) {
    || a.predicted < b.predicted
    || (a.predicted == b.predicted && a.shorthand < b.shorthand)
    || (a.predicted == b.predicted && a.shorthand == b.shorthand && (a.incomplete ==> b.incomplete))
  }

  /** The one match an entry should get: furthest first, then cheapest. */
  ghost predicate IsBest(q: Query, e: Entry, m: Match) {
    && m.entry == e
    && Derives(q, e, OutcomeOf(m))
    && forall o :: Derives(q, e, o) ==>
                     o.position <= m.nextPosition && (o.position == m.nextPosition ==> NoWorse(OutcomeOf(m), o))
  }

  // ---------------------------------------------------------------------------------
  // The trie.

  /** A trie node; the syllables from the root identify it. */
  datatype Node = Node(path: seq<string>, children: seq<Branch>, terminals: seq<Entry>)
  datatype Branch = Branch(syllable: string, child: Node)

  ghost predicate Occurs(entries: set<Entry>, c: char) {
    exists e :: e in entries && c in e.text
  }

  /** Every character of the text stands in the text of some entry. */
  ghost predicate FromIndex(entries: set<Entry>, text: string) {
    forall i :: 0 <= i < |text| ==> Occurs(entries, text[i])
  }

  ghost predicate WellFormed(node: Node, entries: set<Entry>)
    decreases node
  {
    && (forall e :: e in node.terminals <==> e in entries && e.syllablePath == node.path)
    && (forall i, j :: 0 <= i < j < |node.children| ==> node.children[i].syllable != node.children[j].syllable)
    && (forall i :: 0 <= i < |node.children| ==>
                      && node.children[i].child.path == node.path + [node.children[i].syllable]
                      && (var b := node.children[i]; WellFormed(b.child, entries)))
    && (forall e :: e in entries && node.path < e.syllablePath ==>
                      exists i :: 0 <= i < |node.children| && node.children[i].syllable == e.syllablePath[|node.path|])
  }

  /** Every child is stored under the syllable that extends its parent's path. */
  ghost predicate PathsAgree(node: Node)
    decreases node
  {
    forall i :: 0 <= i < |node.children| ==>
                  var b := node.children[i]; b.child.path == node.path + [b.syllable] && PathsAgree(b.child)
  }

  /** setdefault along the syllable path, then append to the terminals. */
  function Insert(node: Node, e: Entry): (r: Node)
    requires node.path <= e.syllablePath && PathsAgree(node)
    ensures r.path == node.path && PathsAgree(r)
    decreases |e.syllablePath| - |node.path|
  {
    if node.path == e.syllablePath then node.(terminals := node.terminals + [e])
    else node.(children := InsertBranch(node.children, node.path, e))
  }

  function InsertBranch(branches: seq<Branch>, path: seq<string>, e: Entry): (r: seq<Branch>)
    requires path < e.syllablePath
    requires forall i :: 0 <= i < |branches| ==>
                           branches[i].child.path == path + [branches[i].syllable] && PathsAgree(branches[i].child)
    ensures forall i :: 0 <= i < |r| ==> r[i].child.path == path + [r[i].syllable] && PathsAgree(r[i].child)
    decreases |e.syllablePath| - |path|, 0, |branches|
  {
    var syllable := e.syllablePath[|path|];
    if branches == [] then
      [Branch(syllable, Insert(Node(path + [syllable], [], []), e))]
    else if branches[0].syllable == syllable then
      [Branch(syllable, Insert(branches[0].child, e))] + branches[1..]
    else
      [branches[0]] + InsertBranch(branches[1..], path, e)
  }

  lemma {:induction false} WellFormedPaths(node: Node, entries: set<Entry>)
    requires WellFormed(node, entries)
    ensures PathsAgree(node)
    decreases node
  {
    forall i | 0 <= i < |node.children| ensures PathsAgree(node.children[i].child) {
      var b := node.children[i];
      WellFormedPaths(b.child, entries);
    }
  }

  /** A subtree that the new entry does not pass through does not notice it. */
  lemma {:induction false} UntouchedSubtree(node: Node, entries: set<Entry>, e: Entry)
    requires WellFormed(node, entries) && !(node.path <= e.syllablePath)
    ensures WellFormed(node, entries + {e})
    decreases node
  {
    forall i | 0 <= i < |node.children| ensures WellFormed(node.children[i].child, entries + {e}) {
      var b := node.children[i];
      assert b.child.path[..|node.path|] == node.path;
      UntouchedSubtree(b.child, entries, e);
    }
  }

  /** Where a branch list, without duplicates, sends the new entry. */
  lemma {:induction false} InsertBranchEffect(branches: seq<Branch>, path: seq<string>, e: Entry)
    returns (k: nat)
    requires path < e.syllablePath
    requires forall i :: 0 <= i < |branches| ==>
                           branches[i].child.path == path + [branches[i].syllable] && PathsAgree(branches[i].child)
    ensures k <= |branches|
    ensures var r := InsertBranch(branches, path, e);
            var s := e.syllablePath[|path|];
            && |r| == (if k < |branches| then |branches| else |branches| + 1)
            && (forall i :: 0 <= i < |branches| && i != k ==> r[i] == branches[i])
            && (forall i :: 0 <= i < k ==> branches[i].syllable != s)
            && (k < |branches| ==> branches[k].syllable == s && r[k] == Branch(s, Insert(branches[k].child, e)))
            && (k == |branches| ==> r[k] == Branch(s, Insert(Node(path + [s], [], []), e)))
  {
    var s := e.syllablePath[|path|];
    if branches == [] || branches[0].syllable == s {
      k := 0;
    } else {
      var j := InsertBranchEffect(branches[1..], path, e);
      k := j + 1;
    }
  }

  lemma InsertTerminal(node: Node, entries: set<Entry>, e: Entry)
    requires WellFormed(node, entries) && node.path == e.syllablePath
    ensures WellFormed(node.(terminals := node.terminals + [e]), entries + {e})
  {
    var r := node.(terminals := node.terminals + [e]);
    forall i | 0 <= i < |r.children| ensures var b := r.children[i]; WellFormed(b.child, entries + {e}) {
      var b := node.children[i];
      UntouchedSubtree(b.child, entries, e);
    }
  }

  lemma FreshLeaf(node: Node, entries: set<Entry>, syllable: string)
    requires WellFormed(node, entries)
    requires forall i :: 0 <= i < |node.children| ==> node.children[i].syllable != syllable
    ensures WellFormed(Node(node.path + [syllable], [], []), entries)
  {
    var leaf := Node(node.path + [syllable], [], []);
    forall x | x in entries && node.path < x.syllablePath ensures x.syllablePath[|node.path|] != syllable {
      var i :| 0 <= i < |node.children| && node.children[i].syllable == x.syllablePath[|node.path|];
    }
    assert forall x :: x in entries && leaf.path <= x.syllablePath ==>
                         node.path < x.syllablePath && x.syllablePath[|node.path|] == syllable;
  }

  lemma BranchesStillCover(node: Node, entries: set<Entry>, e: Entry, k: nat)
    requires WellFormed(node, entries) && node.path < e.syllablePath && PathsAgree(node)
    requires var r := InsertBranch(node.children, node.path, e);
             && |node.children| <= |r| && k < |r|
             && (forall i :: 0 <= i < |node.children| && i != k ==> r[i] == node.children[i])
             && r[k].syllable == e.syllablePath[|node.path|]
             && (k < |node.children| ==> node.children[k].syllable == r[k].syllable)
    ensures var r := InsertBranch(node.children, node.path, e);
            forall x :: x in entries + {e} && node.path < x.syllablePath ==>
                          exists i :: 0 <= i < |r| && r[i].syllable == x.syllablePath[|node.path|]
  {
    var r := InsertBranch(node.children, node.path, e);
    forall x | x in entries + {e} && node.path < x.syllablePath
      ensures exists i :: 0 <= i < |r| && r[i].syllable == x.syllablePath[|node.path|]
    {
      if x == e {
        assert r[k].syllable == x.syllablePath[|node.path|];
      } else {
        var i :| 0 <= i < |node.children| && node.children[i].syllable == x.syllablePath[|node.path|];
        assert r[i].syllable == node.children[i].syllable;
      }
    }
  }

  lemma OtherBranch(node: Node, entries: set<Entry>, e: Entry, i: nat)
    requires WellFormed(node, entries) && node.path < e.syllablePath && i < |node.children|
    requires node.children[i].syllable != e.syllablePath[|node.path|]
    ensures WellFormed(node.children[i].child, entries + {e})
  {
    var b := node.children[i];
    assert b.child.path[|node.path|] == b.syllable;
    UntouchedSubtree(b.child, entries, e);
  }

  /** A node whose branches are well formed for one entry more is itself well formed for it. */
  lemma Assembled(node: Node, entries: set<Entry>, e: Entry, k: nat, r: seq<Branch>)
    requires WellFormed(node, entries) && node.path < e.syllablePath && PathsAgree(node)
    requires r == InsertBranch(node.children, node.path, e)
    requires |r| == (if k < |node.children| then |node.children| else |node.children| + 1) && k < |r|
    requires forall i :: 0 <= i < |node.children| && i != k ==> r[i] == node.children[i]
    requires r[k].syllable == e.syllablePath[|node.path|]
    requires k < |node.children| ==> node.children[k].syllable == r[k].syllable
    requires k == |node.children| ==> forall i :: 0 <= i < k ==> node.children[i].syllable != r[k].syllable
    requires forall i :: 0 <= i < |r| ==> var b := r[i]; WellFormed(b.child, entries + {e})
    ensures WellFormed(node.(children := r), entries + {e})
  {
    BranchesStillCover(node, entries, e, k);
  }

  /** Inserting an entry keeps the trie well formed for one entry more. */
  lemma {:induction false} InsertWellFormed(node: Node, entries: set<Entry>, e: Entry)
    requires WellFormed(node, entries) && node.path <= e.syllablePath && PathsAgree(node)
    ensures WellFormed(Insert(node, e), entries + {e})
    decreases |e.syllablePath| - |node.path|, 1
  {
    if node.path == e.syllablePath {
      InsertTerminal(node, entries, e);
    } else {
      var k := InsertBranchEffect(node.children, node.path, e);
      var r := InsertBranch(node.children, node.path, e);
      forall i | 0 <= i < |r| ensures var b := r[i]; WellFormed(b.child, entries + {e}) {
        InsertedBranch(node, entries, e, k, i, r);
      }
      Assembled(node, entries, e, k, r);
    }
  }

  lemma InsertedBranch(node: Node, entries: set<Entry>, e: Entry, k: nat, i: nat, r: seq<Branch>)
    requires WellFormed(node, entries) && node.path < e.syllablePath && PathsAgree(node)
    requires i < |r| && (i < |node.children| && i != k ==> r[i] == node.children[i])
    requires k <= |node.children| && |r| == (if k < |node.children| then |node.children| else |node.children| + 1)
    requires forall j :: 0 <= j < |node.children| && node.children[j].syllable == e.syllablePath[|node.path|] ==> j == k
    requires k < |node.children| ==>
               node.children[k].syllable == e.syllablePath[|node.path|] && r[k].child == Insert(node.children[k].child, e)
    requires k == |node.children| ==> r[k].child == Insert(Node(node.path + [e.syllablePath[|node.path|]], [], []), e)
    ensures WellFormed(r[i].child, entries + {e})
    decreases |e.syllablePath| - |node.path|, 0
  {
    if i != k {
      OtherBranch(node, entries, e, i);
    } else if k < |node.children| {
      var b := node.children[k];
      InsertWellFormed(b.child, entries, e);
    } else {
      FreshLeaf(node, entries, e.syllablePath[|node.path|]);
      InsertWellFormed(Node(node.path + [e.syllablePath[|node.path|]], [], []), entries, e);
    }
  }

  // ---------------------------------------------------------------------------------
  // Facts about alignments.

  /** Costs only accumulate, positions only move right. */
  lemma {:induction false} AlignsMonotone(q: Query, syllables: seq<string>, position: nat, shorthand: nat, incomplete: bool, o: Outcome)
    requires Aligns(q, syllables, position, shorthand, incomplete, o)
    ensures position <= o.position && shorthand <= o.shorthand
    ensures position <= |q.raw| ==> o.position <= |q.raw|
    decreases |syllables|
  {
    if syllables != [] && position < |q.raw| {
      var s, rest := syllables[0], syllables[1..];
      if TypedInFull(q, s, position) && Aligns(q, rest, position + |s|, shorthand, incomplete, o) {
        AlignsMonotone(q, rest, position + |s|, shorthand, incomplete, o);
      } else if TypedAsInitial(q, s, position) && Aligns(q, rest, position + 1, shorthand + 1, incomplete, o) {
        AlignsMonotone(q, rest, position + 1, shorthand + 1, incomplete, o);
      } else {
        AlignsMonotone(q, rest, |q.raw|, shorthand, true, o);
      }
    }
  }

  /** Entering the same state more cheaply reaches the same ends, cheaper by as much. */
  lemma {:induction false} AlignsCheaper(q: Query, syllables: seq<string>, position: nat, shorthand: nat, less: nat, incomplete: bool, o: Outcome)
    requires less <= shorthand && Aligns(q, syllables, position, shorthand, incomplete, o)
    ensures shorthand <= o.shorthand
    ensures Aligns(q, syllables, position, less, incomplete, o.(shorthand := o.shorthand - shorthand + less))
    decreases |syllables|
  {
    hide TypedInFull, TypedAsInitial, TypedAsUnfinished;
    AlignsMonotone(q, syllables, position, shorthand, incomplete, o);
    if syllables != [] && position < |q.raw| {
      var s, rest := syllables[0], syllables[1..];
      if TypedInFull(q, s, position) && Aligns(q, rest, position + |s|, shorthand, incomplete, o) {
        AlignsCheaper(q, rest, position + |s|, shorthand, less, incomplete, o);
      } else if TypedAsInitial(q, s, position) && Aligns(q, rest, position + 1, shorthand + 1, incomplete, o) {
        AlignsCheaper(q, rest, position + 1, shorthand + 1, less + 1, incomplete, o);
      } else {
        AlignsCheaper(q, rest, |q.raw|, shorthand, less, true, o);
      }
    }
  }

  /** A state reached along `path` may be continued: what aligns after it aligns from the start. */
  ghost predicate Leads(q: Query, path: seq<string>, position: nat, shorthand: nat, incomplete: bool) {
    forall suffix, o :: Aligns(q, suffix, position, shorthand, incomplete, o) ==>
                          Aligns(q, path + suffix, q.start, 0, false, o)
  }

  lemma LeadsNext(q: Query, path: seq<string>, position: nat, shorthand: nat, incomplete: bool,
                  s: string, position': nat, shorthand': nat, incomplete': bool)
    requires Leads(q, path, position, shorthand, incomplete) && position < |q.raw|
    requires || (TypedInFull(q, s, position) && (position', shorthand', incomplete') == (position + |s|, shorthand, incomplete))
             || (!q.exactOnly && TypedAsInitial(q, s, position) && (position', shorthand', incomplete') == (position + 1, shorthand + 1, incomplete))
             || (!q.exactOnly && TypedAsUnfinished(q, s, position) && (position', shorthand', incomplete') == (|q.raw|, shorthand, true))
    ensures Leads(q, path + [s], position', shorthand', incomplete')
  {
    forall suffix, o | Aligns(q, suffix, position', shorthand', incomplete', o)
      ensures Aligns(q, path + [s] + suffix, q.start, 0, false, o)
    {
      var more := [s] + suffix;
      assert more[1..] == suffix;
      assert Aligns(q, more, position, shorthand, incomplete, o);
      assert path + [s] + suffix == path + more;
    }
  }

  // ---------------------------------------------------------------------------------
  // The walk: what `found` and `visited` mean.

  datatype FoundKey = FoundKey(entry: Entry, position: nat)
  datatype VisitKey = VisitKey(path: seq<string>, position: nat, incomplete: bool)

  ghost predicate Covered(found: map<FoundKey, Match>, e: Entry, o: Outcome) {
    FoundKey(e, o.position) in found && NoWorse(OutcomeOf(found[FoundKey(e, o.position)]), o)
  }

  /** Everything recorded is derivable and filed under its own key. */
  ghost predicate Sound(q: Query, entries: set<Entry>, found: map<FoundKey, Match>) {
    forall k :: k in found ==>
                  && k.entry in entries && found[k].entry == k.entry && found[k].nextPosition == k.position
                  && Derives(q, k.entry, OutcomeOf(found[k]))
  }

  ghost predicate Improves(before: map<FoundKey, Match>, after: map<FoundKey, Match>) {
    forall k :: k in before ==> k in after && NoWorse(OutcomeOf(after[k]), OutcomeOf(before[k]))
  }

  /** Nothing derivable through this state is missing or recorded at a higher cost. */
  ghost predicate Complete(q: Query, entries: set<Entry>, found: map<FoundKey, Match>,
                           path: seq<string>, position: nat, shorthand: nat, incomplete: bool) {
    forall e, o :: e in entries && path <= e.syllablePath
                   && Aligns(q, e.syllablePath[|path|..], position, shorthand, incomplete, o) && o.position > q.start ==>
                     Covered(found, e, o)
  }

  /** Every memoised state at or below `path` is complete. */
  ghost predicate SubtreeComplete(q: Query, entries: set<Entry>, found: map<FoundKey, Match>,
                                  visited: map<VisitKey, nat>, path: seq<string>) {
    forall k :: k in visited && path <= k.path ==>
                  Complete(q, entries, found, k.path, k.position, visited[k], k.incomplete)
  }

  lemma NoWorseTransitive(a: Outcome, b: Outcome, c: Outcome)
    requires NoWorse(a, b) && NoWorse(b, c)
    ensures NoWorse(a, c)
  {}

  lemma CompleteImproves(q: Query, entries: set<Entry>, before: map<FoundKey, Match>, after: map<FoundKey, Match>,
                         path: seq<string>, position: nat, shorthand: nat, incomplete: bool)
    requires Complete(q, entries, before, path, position, shorthand, incomplete) && Improves(before, after)
    ensures Complete(q, entries, after, path, position, shorthand, incomplete)
  {
    forall e, o | e in entries && path <= e.syllablePath
                  && Aligns(q, e.syllablePath[|path|..], position, shorthand, incomplete, o) && o.position > q.start
      ensures Covered(after, e, o)
    {
      var k := FoundKey(e, o.position);
      assert Covered(before, e, o);
      NoWorseTransitive(OutcomeOf(after[k]), OutcomeOf(before[k]), o);
    }
  }

  /** The pruning is justified: a state seen at no higher shorthand dominates this visit. */
  lemma DominatedVisit(q: Query, entries: set<Entry>, found: map<FoundKey, Match>,
                       path: seq<string>, position: nat, less: nat, shorthand: nat, incomplete: bool)
    requires less <= shorthand && Complete(q, entries, found, path, position, less, incomplete)
    ensures Complete(q, entries, found, path, position, shorthand, incomplete)
  {
    forall e, o | e in entries && path <= e.syllablePath
                  && Aligns(q, e.syllablePath[|path|..], position, shorthand, incomplete, o) && o.position > q.start
      ensures Covered(found, e, o)
    {
      AlignsCheaper(q, e.syllablePath[|path|..], position, shorthand, less, incomplete, o);
      var cheaper := o.(shorthand := o.shorthand - shorthand + less);
      assert Covered(found, e, cheaper);
    }
  }

  ghost predicate SameOutside(before: map<VisitKey, nat>, after: map<VisitKey, nat>, path: seq<string>) {
    forall k: VisitKey :: !(path <= k.path) ==> (k in before <==> k in after) && (k in before ==> before[k] == after[k])
  }

  /** Memoised states strictly below `path` are complete. */
  ghost predicate BelowComplete(q: Query, entries: set<Entry>, found: map<FoundKey, Match>,
                                visited: map<VisitKey, nat>, path: seq<string>) {
    forall k :: k in visited && path < k.path ==>
                  Complete(q, entries, found, k.path, k.position, visited[k], k.incomplete)
  }

  /** What the walk keeps while it works on the children of one node. */
  ghost predicate Working(q: Query, entries: set<Entry>, path: seq<string>,
                          entryFound: map<FoundKey, Match>, entryVisited: map<VisitKey, nat>,
                          found: map<FoundKey, Match>, visited: map<VisitKey, nat>) {
    && Sound(q, entries, found) && Improves(entryFound, found)
    && BelowComplete(q, entries, found, visited, path)
    && (forall k: VisitKey :: !(path < k.path) ==>
                      (k in entryVisited <==> k in visited) && (k in entryVisited ==> entryVisited[k] == visited[k]))
  }

  lemma ImprovesTransitive(a: map<FoundKey, Match>, b: map<FoundKey, Match>, c: map<FoundKey, Match>)
    requires Improves(a, b) && Improves(b, c)
    ensures Improves(a, c)
  {}

  /** After one child has been walked, the parent's working state still holds. */
  lemma ChildWalked(q: Query, entries: set<Entry>, path: seq<string>, s: string,
                    entryFound: map<FoundKey, Match>, entryVisited: map<VisitKey, nat>,
                    before: map<FoundKey, Match>, beforeVisited: map<VisitKey, nat>,
                    after: map<FoundKey, Match>, afterVisited: map<VisitKey, nat>)
    requires Working(q, entries, path, entryFound, entryVisited, before, beforeVisited)
    requires Sound(q, entries, after) && Improves(before, after)
    requires SubtreeComplete(q, entries, after, afterVisited, path + [s])
    requires SameOutside(beforeVisited, afterVisited, path + [s])
    ensures Working(q, entries, path, entryFound, entryVisited, after, afterVisited)
  {
    ImprovesTransitive(entryFound, before, after);
    forall k | k in afterVisited && path < k.path
      ensures Complete(q, entries, after, k.path, k.position, afterVisited[k], k.incomplete)
    {
      if !(path + [s] <= k.path) {
        CompleteImproves(q, entries, before, after, k.path, k.position, afterVisited[k], k.incomplete);
      }
    }
    forall k: VisitKey | !(path < k.path)
      ensures (k in entryVisited <==> k in afterVisited) && (k in entryVisited ==> entryVisited[k] == afterVisited[k])
    {
      assert !(path + [s] <= k.path);
    }
  }

  /** One child is complete for the step that types its syllable in full. */
  ghost predicate FullDone(q: Query, entries: set<Entry>, found: map<FoundKey, Match>, path: seq<string>, s: string,
                           position: nat, shorthand: nat, incomplete: bool) {
    TypedInFull(q, s, position) ==> Complete(q, entries, found, path + [s], position + |s|, shorthand, incomplete)
  }

  /** One child is complete for the two abbreviated steps. */
  ghost predicate ShortDone(q: Query, entries: set<Entry>, found: map<FoundKey, Match>, path: seq<string>, s: string,
                            position: nat, shorthand: nat, incomplete: bool) {
    && (TypedAsInitial(q, s, position) ==> Complete(q, entries, found, path + [s], position + 1, shorthand + 1, incomplete))
    && (TypedAsUnfinished(q, s, position) ==> Complete(q, entries, found, path + [s], |q.raw|, shorthand, true))
  }

  lemma DoneImproves(q: Query, entries: set<Entry>, before: map<FoundKey, Match>, after: map<FoundKey, Match>,
                     path: seq<string>, s: string, position: nat, shorthand: nat, incomplete: bool)
    requires Improves(before, after)
    ensures FullDone(q, entries, before, path, s, position, shorthand, incomplete) ==>
              FullDone(q, entries, after, path, s, position, shorthand, incomplete)
    ensures ShortDone(q, entries, before, path, s, position, shorthand, incomplete) ==>
              ShortDone(q, entries, after, path, s, position, shorthand, incomplete)
  {
    if FullDone(q, entries, before, path, s, position, shorthand, incomplete) && TypedInFull(q, s, position) {
      CompleteImproves(q, entries, before, after, path + [s], position + |s|, shorthand, incomplete);
    }
    if ShortDone(q, entries, before, path, s, position, shorthand, incomplete) {
      if TypedAsInitial(q, s, position) {
        CompleteImproves(q, entries, before, after, path + [s], position + 1, shorthand + 1, incomplete);
      }
      if TypedAsUnfinished(q, s, position) {
        CompleteImproves(q, entries, before, after, path + [s], |q.raw|, shorthand, true);
      }
    }
  }

  /** All children up to a bound are done, for the first loop and for the second. */
  ghost predicate AllFull(q: Query, entries: set<Entry>, found: map<FoundKey, Match>, node: Node, upto: nat,
                          position: nat, shorthand: nat, incomplete: bool)
    requires upto <= |node.children|
  {
    forall i :: 0 <= i < upto ==> FullDone(q, entries, found, node.path, node.children[i].syllable, position, shorthand, incomplete)
  }

  ghost predicate AllShort(q: Query, entries: set<Entry>, found: map<FoundKey, Match>, node: Node, upto: nat,
                           position: nat, shorthand: nat, incomplete: bool)
    requires upto <= |node.children|
  {
    forall i :: 0 <= i < upto ==> ShortDone(q, entries, found, node.path, node.children[i].syllable, position, shorthand, incomplete)
  }

  lemma AllImprove(q: Query, entries: set<Entry>, before: map<FoundKey, Match>, after: map<FoundKey, Match>,
                   node: Node, full: nat, short: nat, position: nat, shorthand: nat, incomplete: bool)
    requires full <= |node.children| && short <= |node.children| && Improves(before, after)
    requires AllFull(q, entries, before, node, full, position, shorthand, incomplete)
    requires AllShort(q, entries, before, node, short, position, shorthand, incomplete)
    ensures AllFull(q, entries, after, node, full, position, shorthand, incomplete)
    ensures AllShort(q, entries, after, node, short, position, shorthand, incomplete)
  {
    forall i | 0 <= i < full
      ensures FullDone(q, entries, after, node.path, node.children[i].syllable, position, shorthand, incomplete)
    {
      DoneImproves(q, entries, before, after, node.path, node.children[i].syllable, position, shorthand, incomplete);
    }
    forall i | 0 <= i < short
      ensures ShortDone(q, entries, after, node.path, node.children[i].syllable, position, shorthand, incomplete)
    {
      DoneImproves(q, entries, before, after, node.path, node.children[i].syllable, position, shorthand, incomplete);
    }
  }

  lemma OneMoreFull(q: Query, entries: set<Entry>, before: map<FoundKey, Match>, after: map<FoundKey, Match>,
                    node: Node, n: nat, position: nat, shorthand: nat, incomplete: bool)
    requires n < |node.children| && Improves(before, after)
    requires AllFull(q, entries, before, node, n, position, shorthand, incomplete)
    requires FullDone(q, entries, after, node.path, node.children[n].syllable, position, shorthand, incomplete)
    ensures AllFull(q, entries, after, node, n + 1, position, shorthand, incomplete)
  {
    AllImprove(q, entries, before, after, node, n, 0, position, shorthand, incomplete);
  }

  lemma OneMoreShort(q: Query, entries: set<Entry>, before: map<FoundKey, Match>, after: map<FoundKey, Match>,
                     node: Node, n: nat, position: nat, shorthand: nat, incomplete: bool)
    requires n < |node.children| && Improves(before, after)
    requires AllShort(q, entries, before, node, n, position, shorthand, incomplete)
    requires ShortDone(q, entries, after, node.path, node.children[n].syllable, position, shorthand, incomplete)
    ensures AllShort(q, entries, after, node, n + 1, position, shorthand, incomplete)
  {
    AllImprove(q, entries, before, after, node, 0, n, position, shorthand, incomplete);
  }

  /** The terminals recorded at a node. */
  ghost predicate TerminalsCovered(q: Query, found: map<FoundKey, Match>, node: Node, position: nat, shorthand: nat, incomplete: bool) {
    position > q.start ==> forall e :: e in node.terminals ==> Covered(found, e, Outcome(position, shorthand, incomplete, 0))
  }

  /** The outcome of predicting an entry below a fully consumed node. */
  ghost function Ahead(node: Node, e: Entry, position: nat, shorthand: nat, predicted: nat): Outcome
    requires node.path < e.syllablePath
  {
    Outcome(position, shorthand, false, predicted + |e.syllablePath| - |node.path| - 1)
  }

  /** Every pronunciation strictly below a node, as a prediction past the input. */
  ghost predicate DescendantsCovered(found: map<FoundKey, Match>, entries: set<Entry>, node: Node, position: nat, shorthand: nat, predicted: nat) {
    forall e :: e in entries && node.path < e.syllablePath ==> Covered(found, e, Ahead(node, e, position, shorthand, predicted))
  }

  ghost predicate BranchCovered(found: map<FoundKey, Match>, entries: set<Entry>, node: Node, i: nat, position: nat, shorthand: nat, predicted: nat)
    requires i < |node.children|
  {
    forall e :: e in entries && node.path < e.syllablePath && e.syllablePath[|node.path|] == node.children[i].syllable ==>
                  Covered(found, e, Ahead(node, e, position, shorthand, predicted))
  }

  lemma BranchesStay(entries: set<Entry>, before: map<FoundKey, Match>, after: map<FoundKey, Match>, node: Node, n: nat,
                     position: nat, shorthand: nat, predicted: nat)
    requires n < |node.children| && Improves(before, after)
    requires forall i :: 0 <= i < n ==> BranchCovered(before, entries, node, i, position, shorthand, predicted)
    requires BranchCovered(after, entries, node, n, position, shorthand, predicted)
    ensures forall i :: 0 <= i < n + 1 ==> BranchCovered(after, entries, node, i, position, shorthand, predicted)
  {
    hide Covered, Improves;
    forall i | 0 <= i < n ensures BranchCovered(after, entries, node, i, position, shorthand, predicted) {
      assert BranchCovered(before, entries, node, i, position, shorthand, predicted);
      forall e: Entry | node.path < e.syllablePath && Covered(before, e, Ahead(node, e, position, shorthand, predicted))
        ensures Covered(after, e, Ahead(node, e, position, shorthand, predicted))
      {
        CoveredStays(before, after, e, Ahead(node, e, position, shorthand, predicted));
      }
    }
  }

  lemma BranchesCoverDescendants(entries: set<Entry>, found: map<FoundKey, Match>, node: Node, position: nat, shorthand: nat, predicted: nat)
    requires WellFormed(node, entries)
    requires forall i :: 0 <= i < |node.children| ==> BranchCovered(found, entries, node, i, position, shorthand, predicted)
    ensures DescendantsCovered(found, entries, node, position, shorthand, predicted)
  {
    forall e | e in entries && node.path < e.syllablePath ensures Covered(found, e, Ahead(node, e, position, shorthand, predicted)) {
      var i :| 0 <= i < |node.children| && node.children[i].syllable == e.syllablePath[|node.path|];
      assert BranchCovered(found, entries, node, i, position, shorthand, predicted);
    }
  }

  lemma BranchDerives(q: Query, entries: set<Entry>, node: Node, n: nat, position: nat, shorthand: nat, predicted: nat)
    requires WellFormed(node, entries) && n < |node.children|
    requires forall e :: e in entries && node.path < e.syllablePath ==> Derives(q, e, Ahead(node, e, position, shorthand, predicted))
    ensures var child := node.children[n].child;
            && WellFormed(child, entries)
            && (forall e :: e in child.terminals ==> e in entries && Derives(q, e, Outcome(position, shorthand, false, predicted)))
            && (forall e :: e in entries && child.path < e.syllablePath ==>
                              Derives(q, e, Ahead(child, e, position, shorthand, predicted + 1)))
  {
    var b := node.children[n];
    forall e | e in entries && b.child.path <= e.syllablePath
      ensures node.path < e.syllablePath && Derives(q, e, Ahead(node, e, position, shorthand, predicted))
    {
      assert e.syllablePath[..|node.path|] == node.path;
    }
    forall e | e in b.child.terminals ensures e in entries && Derives(q, e, Outcome(position, shorthand, false, predicted)) {
      assert b.child.path <= e.syllablePath;
      assert Ahead(node, e, position, shorthand, predicted) == Outcome(position, shorthand, false, predicted);
    }
    forall e | e in entries && b.child.path < e.syllablePath
      ensures Derives(q, e, Ahead(b.child, e, position, shorthand, predicted + 1))
    {
      assert Ahead(b.child, e, position, shorthand, predicted + 1) == Ahead(node, e, position, shorthand, predicted);
    }
  }

  lemma BranchDone(entries: set<Entry>, middle: map<FoundKey, Match>, after: map<FoundKey, Match>, node: Node, n: nat,
                   position: nat, shorthand: nat, predicted: nat)
    requires WellFormed(node, entries) && n < |node.children| && Improves(middle, after)
    requires forall e :: e in node.children[n].child.terminals ==> Covered(middle, e, Outcome(position, shorthand, false, predicted))
    requires DescendantsCovered(after, entries, node.children[n].child, position, shorthand, predicted + 1)
    ensures BranchCovered(after, entries, node, n, position, shorthand, predicted)
  {
    var b := node.children[n];
    forall e | e in entries && node.path < e.syllablePath && e.syllablePath[|node.path|] == b.syllable
      ensures Covered(after, e, Ahead(node, e, position, shorthand, predicted))
    {
      ChildSuffix(node.path, e.syllablePath);
      if e.syllablePath == b.child.path {
        assert WellFormed(b.child, entries);
        assert e in b.child.terminals;
        CoveredStays(middle, after, e, Outcome(position, shorthand, false, predicted));
      } else {
        assert b.child.path < e.syllablePath;
        assert Ahead(b.child, e, position, shorthand, predicted + 1) == Ahead(node, e, position, shorthand, predicted);
      }
    }
  }

  lemma CoveredStays(before: map<FoundKey, Match>, after: map<FoundKey, Match>, e: Entry, o: Outcome)
    requires Covered(before, e, o) && Improves(before, after)
    ensures Covered(after, e, o)
  {
    var k := FoundKey(e, o.position);
    NoWorseTransitive(OutcomeOf(after[k]), OutcomeOf(before[k]), o);
  }

  /** An alignment below a node goes through the child of its first syllable. */
  lemma ThroughChild(q: Query, entries: set<Entry>, found: map<FoundKey, Match>, path: seq<string>, e: Entry,
                     position: nat, shorthand: nat, incomplete: bool, o: Outcome)
    requires e in entries && path < e.syllablePath && position < |q.raw| && o.position > q.start
    requires Aligns(q, e.syllablePath[|path|..], position, shorthand, incomplete, o)
    requires FullDone(q, entries, found, path, e.syllablePath[|path|], position, shorthand, incomplete)
    requires q.exactOnly || ShortDone(q, entries, found, path, e.syllablePath[|path|], position, shorthand, incomplete)
    ensures Covered(found, e, o)
  {
    hide Complete, Covered, TypedInFull, TypedAsInitial, TypedAsUnfinished;
    var suffix, s := e.syllablePath[|path|..], e.syllablePath[|path|];
    ChildSuffix(path, e.syllablePath);
    assert suffix[0] == s;
    if TypedInFull(q, s, position) && Aligns(q, suffix[1..], position + |s|, shorthand, incomplete, o) {
      UseComplete(q, entries, found, path + [s], e, position + |s|, shorthand, incomplete, o);
    } else if TypedAsInitial(q, s, position) && Aligns(q, suffix[1..], position + 1, shorthand + 1, incomplete, o) {
      UseComplete(q, entries, found, path + [s], e, position + 1, shorthand + 1, incomplete, o);
    } else {
      UseComplete(q, entries, found, path + [s], e, |q.raw|, shorthand, true, o);
    }
  }

  lemma UseComplete(q: Query, entries: set<Entry>, found: map<FoundKey, Match>, path: seq<string>, e: Entry,
                    position: nat, shorthand: nat, incomplete: bool, o: Outcome)
    requires Complete(q, entries, found, path, position, shorthand, incomplete)
    requires e in entries && path <= e.syllablePath && o.position > q.start
    requires Aligns(q, e.syllablePath[|path|..], position, shorthand, incomplete, o)
    ensures Covered(found, e, o)
  {}

  /** Terminals, then every kind of child step: together they complete the node. */
  lemma NodeComplete(q: Query, entries: set<Entry>, found: map<FoundKey, Match>, node: Node,
                     position: nat, shorthand: nat, incomplete: bool)
    requires WellFormed(node, entries) && position <= |q.raw|
    requires TerminalsCovered(q, found, node, position, shorthand, incomplete)
    requires position >= |q.raw| && !incomplete && !q.exactOnly && q.includeDescendants ==>
               DescendantsCovered(found, entries, node, position, shorthand, 1)
    requires position < |q.raw| ==> AllFull(q, entries, found, node, |node.children|, position, shorthand, incomplete)
    requires position < |q.raw| && !q.exactOnly ==>
               AllShort(q, entries, found, node, |node.children|, position, shorthand, incomplete)
    ensures Complete(q, entries, found, node.path, position, shorthand, incomplete)
  {
    forall e, o | e in entries && node.path <= e.syllablePath
                  && Aligns(q, e.syllablePath[|node.path|..], position, shorthand, incomplete, o) && o.position > q.start
      ensures Covered(found, e, o)
    {
      if e.syllablePath == node.path {
        assert e in node.terminals;
      } else if position < |q.raw| {
        assert node.path < e.syllablePath;
        var i :| 0 <= i < |node.children| && node.children[i].syllable == e.syllablePath[|node.path|];
        ThroughChild(q, entries, found, node.path, e, position, shorthand, incomplete, o);
      }
    }
  }

  lemma ChildSuffix(path: seq<string>, whole: seq<string>)
    requires path < whole
    ensures path + [whole[|path|]] <= whole
    ensures whole[|path + [whole[|path|]]|..] == whole[|path|..][1..]
  {}

  // ---------------------------------------------------------------------------------
  // The walk itself.

  /** The work maps of one enumeration. */
  class NeuralSearch {
    const q: Query
    ghost const entries: set<Entry>
    var found: map<FoundKey, Match>
    var order: seq<FoundKey>          // insertion order of `found`
    var visited: map<VisitKey, nat>   // least shorthand a state was entered with

    constructor (q: Query, ghost entries: set<Entry>)
      ensures this.q == q && this.entries == entries
      ensures found == map[] && order == [] && visited == map[]
    {
      this.q := q;
      this.entries := entries;
      found, order, visited := map[], [], map[];
    }

    /** The insertion order lists each key once. */
    ghost predicate Ordered()
      reads this
    {
      && (forall i, j :: 0 <= i < j < |order| ==> order[i] != order[j])
      && (forall k :: k in order <==> k in found)
    }

    /** Keep, per entry and position, the least (predicted, shorthand, incomplete). */
    method Record(node: Node, position: nat, shorthand: nat, incomplete: bool, predicted: nat)
      requires Ordered() && Sound(q, entries, found)
      requires forall e :: e in node.terminals ==> e in entries && Derives(q, e, Outcome(position, shorthand, incomplete, predicted))
      modifies this`found, this`order
      ensures Ordered() && Sound(q, entries, found) && Improves(old(found), found)
      ensures forall e :: e in node.terminals ==> Covered(found, e, Outcome(position, shorthand, incomplete, predicted))
    {
      ghost var o := Outcome(position, shorthand, incomplete, predicted);
      for n := 0 to |node.terminals|
        invariant Ordered() && Sound(q, entries, found) && Improves(old(found), found)
        invariant forall i :: 0 <= i < n ==> Covered(found, node.terminals[i], o)
      {
        var e := node.terminals[n];
        assert e in node.terminals;
        ghost var before := found;
        RecordEntry(Match(e, position, shorthand, incomplete, predicted));
        ImprovesTransitive(old(found), before, found);
        forall i | 0 <= i < n ensures Covered(found, node.terminals[i], o) {
          CoveredStays(before, found, node.terminals[i], o);
        }
      }
    }

    method RecordEntry(m: Match)
      requires Ordered() && Sound(q, entries, found)
      requires m.entry in entries && Derives(q, m.entry, OutcomeOf(m))
      modifies this`found, this`order
      ensures Ordered() && Sound(q, entries, found) && Improves(old(found), found)
      ensures Covered(found, m.entry, OutcomeOf(m))
    {
      hide Derives;
      var key := FoundKey(m.entry, m.nextPosition);
      if key !in found {
        order := order + [key];
        found := found[key := m];
      } else if !NoWorse(OutcomeOf(found[key]), OutcomeOf(m)) {
        found := found[key := m];
      }
    }

    /** Predict every pronunciation below a fully consumed node. */
    method Descendants(node: Node, position: nat, shorthand: nat, predicted: nat)
      requires Ordered() && Sound(q, entries, found) && WellFormed(node, entries)
      requires forall e :: e in entries && node.path < e.syllablePath ==> Derives(q, e, Ahead(node, e, position, shorthand, predicted))
      modifies this`found, this`order
      ensures Ordered() && Sound(q, entries, found) && Improves(old(found), found)
      ensures DescendantsCovered(found, entries, node, position, shorthand, predicted)
      decreases node, 1
    {
      for n := 0 to |node.children|
        invariant Ordered() && Sound(q, entries, found) && Improves(old(found), found)
        invariant forall i :: 0 <= i < n ==> BranchCovered(found, entries, node, i, position, shorthand, predicted)
      {
        hide *;
        ghost var before := found;
        DescendBranch(node, n, position, shorthand, predicted);
        ImprovesTransitive(old(found), before, found);
        BranchesStay(entries, before, found, node, n, position, shorthand, predicted);
      }
      BranchesCoverDescendants(entries, found, node, position, shorthand, predicted);
    }

    /** One child: its own pronunciations, then those below it. */
    method DescendBranch(node: Node, n: nat, position: nat, shorthand: nat, predicted: nat)
      requires n < |node.children|
      requires Ordered() && Sound(q, entries, found) && WellFormed(node, entries)
      requires forall e :: e in entries && node.path < e.syllablePath ==> Derives(q, e, Ahead(node, e, position, shorthand, predicted))
      modifies this`found, this`order
      ensures Ordered() && Sound(q, entries, found) && Improves(old(found), found)
      ensures BranchCovered(found, entries, node, n, position, shorthand, predicted)
      decreases node, 0
    {
      hide Derives, Covered, DescendantsCovered, BranchCovered, Ordered, Sound, Improves;
      var b := node.children[n];
      ghost var before := found;
      BranchDerives(q, entries, node, n, position, shorthand, predicted);
      Record(b.child, position, shorthand, false, predicted);
      ghost var middle := found;
      Descendants(b.child, position, shorthand, predicted + 1);
      ImprovesTransitive(before, middle, found);
      BranchDone(entries, middle, found, node, n, position, shorthand, predicted);
    }

    /** Both child loops of a visit: full spellings first, then shorthand and unfinished ones. */
    method WalkChildren(node: Node, position: nat, shorthand: nat, incomplete: bool)
      requires Ordered() && Sound(q, entries, found) && WellFormed(node, entries)
      requires q.start <= position < |q.raw|
      requires Leads(q, node.path, position, shorthand, incomplete)
      requires BelowComplete(q, entries, found, visited, node.path)
      modifies this`found, this`order, this`visited
      ensures Ordered() && Working(q, entries, node.path, old(found), old(visited), found, visited)
      ensures AllFull(q, entries, found, node, |node.children|, position, shorthand, incomplete)
      ensures !q.exactOnly ==> AllShort(q, entries, found, node, |node.children|, position, shorthand, incomplete)
      decreases node, 0
    {
      WalkFull(node, position, shorthand, incomplete, old(found), old(visited));
      if !q.exactOnly {
        ghost var before := found;
        WalkShort(node, position, shorthand, incomplete, old(found), old(visited));
        AllImprove(q, entries, before, found, node, |node.children|, 0, position, shorthand, incomplete);
      }
    }

    method WalkFull(node: Node, position: nat, shorthand: nat, incomplete: bool,
                    ghost entryFound: map<FoundKey, Match>, ghost entryVisited: map<VisitKey, nat>)
      requires Ordered() && WellFormed(node, entries)
      requires q.start <= position < |q.raw|
      requires Leads(q, node.path, position, shorthand, incomplete)
      requires Working(q, entries, node.path, entryFound, entryVisited, found, visited)
      modifies this`found, this`order, this`visited
      ensures Ordered() && Working(q, entries, node.path, entryFound, entryVisited, found, visited)
      ensures AllFull(q, entries, found, node, |node.children|, position, shorthand, incomplete)
      decreases node, 0, 1
    {
      for n := 0 to |node.children|
        invariant Ordered() && Working(q, entries, node.path, entryFound, entryVisited, found, visited)
        invariant AllFull(q, entries, found, node, n, position, shorthand, incomplete)
      {
        hide *;
        ghost var before := found;
        FullChild(node, n, position, shorthand, incomplete, entryFound, entryVisited);
        OneMoreFull(q, entries, before, found, node, n, position, shorthand, incomplete);
      }
    }

    method WalkShort(node: Node, position: nat, shorthand: nat, incomplete: bool,
                     ghost entryFound: map<FoundKey, Match>, ghost entryVisited: map<VisitKey, nat>)
      requires Ordered() && WellFormed(node, entries) && !q.exactOnly
      requires q.start <= position < |q.raw|
      requires Leads(q, node.path, position, shorthand, incomplete)
      requires Working(q, entries, node.path, entryFound, entryVisited, found, visited)
      modifies this`found, this`order, this`visited
      ensures Ordered() && Working(q, entries, node.path, entryFound, entryVisited, found, visited)
      ensures Improves(old(found), found)
      ensures AllShort(q, entries, found, node, |node.children|, position, shorthand, incomplete)
      decreases node, 0, 1
    {
      for n := 0 to |node.children|
        invariant Ordered() && Working(q, entries, node.path, entryFound, entryVisited, found, visited)
        invariant Improves(old(found), found)
        invariant AllShort(q, entries, found, node, n, position, shorthand, incomplete)
      {
        ghost var before := found;
        ShortChild(node, n, position, shorthand, incomplete, entryFound, entryVisited);
        OneMoreShort(q, entries, before, found, node, n, position, shorthand, incomplete);
        ImprovesTransitive(old(found), before, found);
      }
    }

    /** One iteration of the first loop. */
    method FullChild(node: Node, n: nat, position: nat, shorthand: nat, incomplete: bool,
                     ghost entryFound: map<FoundKey, Match>, ghost entryVisited: map<VisitKey, nat>)
      requires n < |node.children|
      requires Ordered() && WellFormed(node, entries)
      requires q.start <= position < |q.raw|
      requires Leads(q, node.path, position, shorthand, incomplete)
      requires Working(q, entries, node.path, entryFound, entryVisited, found, visited)
      modifies this`found, this`order, this`visited
      ensures Ordered() && Working(q, entries, node.path, entryFound, entryVisited, found, visited)
      ensures Improves(old(found), found)
      ensures FullDone(q, entries, found, node.path, node.children[n].syllable, position, shorthand, incomplete)
      decreases node, 0, 0
    {
      var b := node.children[n];
      if TypedInFull(q, b.syllable, position) {
        ghost var before, beforeVisited := found, visited;
        LeadsNext(q, node.path, position, shorthand, incomplete, b.syllable, position + |b.syllable|, shorthand, incomplete);
        Visit(b.child, position + |b.syllable|, shorthand, incomplete);
        ChildWalked(q, entries, node.path, b.syllable, entryFound, entryVisited, before, beforeVisited, found, visited);
      }
    }

    /** One iteration of the second loop. */
    method ShortChild(node: Node, n: nat, position: nat, shorthand: nat, incomplete: bool,
                      ghost entryFound: map<FoundKey, Match>, ghost entryVisited: map<VisitKey, nat>)
      requires n < |node.children| && !q.exactOnly
      requires Ordered() && WellFormed(node, entries)
      requires q.start <= position < |q.raw|
      requires Leads(q, node.path, position, shorthand, incomplete)
      requires Working(q, entries, node.path, entryFound, entryVisited, found, visited)
      modifies this`found, this`order, this`visited
      ensures Ordered() && Working(q, entries, node.path, entryFound, entryVisited, found, visited)
      ensures Improves(old(found), found)
      ensures ShortDone(q, entries, found, node.path, node.children[n].syllable, position, shorthand, incomplete)
      decreases node, 0, 0
    {
      var b := node.children[n];
      ghost var before, beforeVisited := found, visited;
      if TypedAsInitial(q, b.syllable, position) {
        LeadsNext(q, node.path, position, shorthand, incomplete, b.syllable, position + 1, shorthand + 1, incomplete);
        Visit(b.child, position + 1, shorthand + 1, incomplete);
        ChildWalked(q, entries, node.path, b.syllable, entryFound, entryVisited, before, beforeVisited, found, visited);
      }
      if TypedAsUnfinished(q, b.syllable, position) {
        ghost var middle, middleVisited := found, visited;
        LeadsNext(q, node.path, position, shorthand, incomplete, b.syllable, |q.raw|, shorthand, true);
        Visit(b.child, |q.raw|, shorthand, true);
        ChildWalked(q, entries, node.path, b.syllable, entryFound, entryVisited, middle, middleVisited, found, visited);
        if TypedAsInitial(q, b.syllable, position) {
          CompleteImproves(q, entries, middle, found, node.path + [b.syllable], position + 1, shorthand + 1, incomplete);
        }
        ImprovesTransitive(before, middle, found);
      }
    }

    /** The pruned walk from one state covers everything derivable through it. */
    method Visit(node: Node, position: nat, shorthand: nat, incomplete: bool)
      requires Ordered() && Sound(q, entries, found) && WellFormed(node, entries)
      requires q.start < |q.raw| && q.start <= position <= |q.raw|
      requires Leads(q, node.path, position, shorthand, incomplete)
      requires SubtreeComplete(q, entries, found, visited, node.path)
      modifies this`found, this`order, this`visited
      ensures Ordered() && Sound(q, entries, found) && Improves(old(found), found)
      ensures Complete(q, entries, found, node.path, position, shorthand, incomplete)
      ensures SubtreeComplete(q, entries, found, visited, node.path)
      ensures SameOutside(old(visited), visited, node.path)
      decreases node, 1
    {
      var state := VisitKey(node.path, position, incomplete);
      if state in visited && visited[state] <= shorthand {
        DominatedVisit(q, entries, found, node.path, position, visited[state], shorthand, incomplete);
        return;
      }
      ghost var entry, entryVisited := found, visited;
      visited := visited[state := shorthand];
      if position > q.start {
        TerminalsDerive(q, entries, node, position, shorthand, incomplete);
        Record(node, position, shorthand, incomplete, 0);
      }
      ghost var recorded, marked := found, visited;
      BelowImproves(q, entries, entry, recorded, entryVisited, marked, node.path, state, shorthand);
      if position < |q.raw| {
        WalkChildren(node, position, shorthand, incomplete);
      } else if !incomplete && !q.exactOnly && q.includeDescendants {
        DescendantsDerive(q, entries, node, position, shorthand);
        Descendants(node, position, shorthand, 1);
        BelowImproves(q, entries, recorded, found, marked, visited, node.path, state, shorthand);
      }
      ImprovesTransitive(entry, recorded, found);
      CoveredImproves(q, recorded, found, node, position, shorthand, incomplete);
      NodeComplete(q, entries, found, node, position, shorthand, incomplete);
      VisitDone(q, entries, entry, found, entryVisited, visited, node.path, state, shorthand);
    }
  }

  lemma TerminalsDerive(q: Query, entries: set<Entry>, node: Node, position: nat, shorthand: nat, incomplete: bool)
    requires WellFormed(node, entries) && Leads(q, node.path, position, shorthand, incomplete) && position > q.start
    ensures forall e :: e in node.terminals ==> e in entries && Derives(q, e, Outcome(position, shorthand, incomplete, 0))
  {
    forall e | e in node.terminals ensures e in entries && Derives(q, e, Outcome(position, shorthand, incomplete, 0)) {
      assert Aligns(q, [], position, shorthand, incomplete, Outcome(position, shorthand, incomplete, 0));
      assert node.path + [] == e.syllablePath;
    }
  }

  lemma DescendantsDerive(q: Query, entries: set<Entry>, node: Node, position: nat, shorthand: nat)
    requires Leads(q, node.path, position, shorthand, false) && q.start < |q.raw| <= position
    requires !q.exactOnly && q.includeDescendants
    ensures forall e :: e in entries && node.path < e.syllablePath ==> Derives(q, e, Ahead(node, e, position, shorthand, 1))
  {
    forall e | e in entries && node.path < e.syllablePath ensures Derives(q, e, Ahead(node, e, position, shorthand, 1))
    {
      var suffix := e.syllablePath[|node.path|..];
      assert Aligns(q, suffix, position, shorthand, false, Outcome(position, shorthand, false, |suffix|));
      assert node.path + suffix == e.syllablePath;
    }
  }

  lemma CoveredImproves(q: Query, before: map<FoundKey, Match>, after: map<FoundKey, Match>, node: Node,
                        position: nat, shorthand: nat, incomplete: bool)
    requires TerminalsCovered(q, before, node, position, shorthand, incomplete) && Improves(before, after)
    ensures TerminalsCovered(q, after, node, position, shorthand, incomplete)
  {}

  /** Recording matches and marking one more state at `path` disturb nothing below it. */
  lemma BelowImproves(q: Query, entries: set<Entry>, before: map<FoundKey, Match>, after: map<FoundKey, Match>,
                      beforeVisited: map<VisitKey, nat>, afterVisited: map<VisitKey, nat>,
                      path: seq<string>, state: VisitKey, shorthand: nat)
    requires BelowComplete(q, entries, before, beforeVisited, path) && Improves(before, after)
    requires state.path == path && (afterVisited == beforeVisited || afterVisited == beforeVisited[state := shorthand])
    ensures BelowComplete(q, entries, after, afterVisited, path)
  {
    forall k | k in afterVisited && path < k.path
      ensures Complete(q, entries, after, k.path, k.position, afterVisited[k], k.incomplete)
    {
      CompleteImproves(q, entries, before, after, k.path, k.position, afterVisited[k], k.incomplete);
    }
  }

  /** When the node itself is complete, so is the whole subtree of memoised states. */
  lemma VisitDone(q: Query, entries: set<Entry>, before: map<FoundKey, Match>, after: map<FoundKey, Match>,
                  beforeVisited: map<VisitKey, nat>, afterVisited: map<VisitKey, nat>,
                  path: seq<string>, state: VisitKey, shorthand: nat)
    requires SubtreeComplete(q, entries, before, beforeVisited, path) && Improves(before, after)
    requires state.path == path && Complete(q, entries, after, path, state.position, shorthand, state.incomplete)
    requires BelowComplete(q, entries, after, afterVisited, path)
    requires forall k: VisitKey :: !(path < k.path) ==>
                                     (k in beforeVisited[state := shorthand] <==> k in afterVisited)
                                     && (k in afterVisited ==> afterVisited[k] == beforeVisited[state := shorthand][k])
    ensures SubtreeComplete(q, entries, after, afterVisited, path)
    ensures SameOutside(beforeVisited, afterVisited, path)
  {
    forall k | k in afterVisited && path <= k.path
      ensures Complete(q, entries, after, k.path, k.position, afterVisited[k], k.incomplete)
    {
      if k.path == path {
        assert !(path < k.path);
        if k != state {
          CompleteImproves(q, entries, before, after, k.path, k.position, afterVisited[k], k.incomplete);
        }
      }
    }
    forall k: VisitKey | !(path <= k.path)
      ensures (k in beforeVisited <==> k in afterVisited) && (k in beforeVisited ==> beforeVisited[k] == afterVisited[k])
    {
      assert !(path < k.path);
    }
  }

  // ---------------------------------------------------------------------------------
  // The result order.

  /** Code-point order of strings. */
  predicate TextLe(a: string, b: string) {
    a == "" || (b != "" && (a[0] < b[0] || (a[0] == b[0] && TextLe(a[1..], b[1..]))))
  }

  lemma {:induction false} TextLeTotal(a: string, b: string)
    ensures TextLe(a, b) || TextLe(b, a)
    ensures TextLe(a, b) && TextLe(b, a) ==> a == b
  {
    if a != "" && b != "" && a[0] == b[0] {
      TextLeTotal(a[1..], b[1..]);
      assert a == [a[0]] + a[1..] && b == [b[0]] + b[1..];
    }
  }

  lemma {:induction false} TextLeTransitive(a: string, b: string, c: string)
    requires TextLe(a, b) && TextLe(b, c)
    ensures TextLe(a, c)
  {
    if a != "" && a[0] == b[0] == c[0] {
      TextLeTransitive(a[1..], b[1..], c[1..]);
    }
  }

  /** It is the order of strings by their first difference, a beginning before what it begins. */
  lemma {:induction false} TextLeExactly(a: string, b: string)
    ensures TextLe(a, b) <==> a <= b || exists k :: 0 <= k < |a| && k < |b| && a[..k] == b[..k] && a[k] < b[k]
  {
    if a != "" && b != "" {
      if a[0] == b[0] {
        TextLeExactly(a[1..], b[1..]);
        assert a == [a[0]] + a[1..] && b == [b[0]] + b[1..];
        if k :| 0 <= k < |a[1..]| && k < |b[1..]| && a[1..][..k] == b[1..][..k] && a[1..][k] < b[1..][k] {
          assert a[..k + 1] == [a[0]] + a[1..][..k] && b[..k + 1] == [b[0]] + b[1..][..k] && a[k + 1] < b[k + 1];
        }
        if k :| 0 <= k < |a| && k < |b| && a[..k] == b[..k] && a[k] < b[k] {
          assert k > 0 && a[1..][..k - 1] == a[..k][1..] && b[1..][..k - 1] == b[..k][1..] && a[1..][k - 1] < b[1..][k - 1];
        }
      } else {
        assert a[..0] == b[..0];
        if k :| 0 < k < |a| && k < |b| && a[..k] == b[..k] { assert a[..k][0] == b[..k][0]; }
      }
    }
  }

  /** Whole-input matches first, fewest predicted syllables, furthest, then text and token. */
  predicate MatchLe(raw: string, a: Match, b: Match) {
    var wholeA, wholeB := a.nextPosition == |raw|, b.nextPosition == |raw|;
    if wholeA != wholeB then wholeA
    else if a.completionSyllables != b.completionSyllables then a.completionSyllables < b.completionSyllables
    else if a.nextPosition != b.nextPosition then a.nextPosition > b.nextPosition
    else if a.entry.text != b.entry.text then TextLe(a.entry.text, b.entry.text)
    else a.entry.tokenId <= b.entry.tokenId
  }

  /** The components of the order, one behind the other: whole inputs first; ascending by predicted
      syllables; those that reach further first; ascending by text; ascending by token. */
  ghost predicate InOrder(raw: string, a: Match, b: Match) {
    && (b.nextPosition == |raw| ==> a.nextPosition == |raw|)
    && ((a.nextPosition == |raw| <==> b.nextPosition == |raw|) ==>
          && a.completionSyllables <= b.completionSyllables
          && (a.completionSyllables == b.completionSyllables ==>
                && a.nextPosition >= b.nextPosition
                && (a.nextPosition == b.nextPosition ==>
                      TextLe(a.entry.text, b.entry.text) && (a.entry.text == b.entry.text ==> a.entry.tokenId <= b.entry.tokenId))))
  }

  lemma MatchLeIsInOrder(raw: string, a: Match, b: Match)
    requires MatchLe(raw, a, b)
    ensures InOrder(raw, a, b)
  {
    TextLeTotal(a.entry.text, a.entry.text);
  }

  function ByRank(raw: string): (Match, Match) -> bool {
    (a, b) => MatchLe(raw, a, b)
  }

  lemma ByRankIsOrder(raw: string)
    ensures TotalPreorder(ByRank(raw))
  {
    var le := ByRank(raw);
    forall a, b ensures le(a, b) || le(b, a) {
      TextLeTotal(a.entry.text, b.entry.text);
    }
    forall a, b, c | le(a, b) && le(b, c) ensures le(a, c) {
      if a.entry.text != b.entry.text && b.entry.text != c.entry.text {
        TextLeTotal(a.entry.text, b.entry.text);
        if TextLe(a.entry.text, b.entry.text) && TextLe(b.entry.text, c.entry.text) {
          TextLeTransitive(a.entry.text, b.entry.text, c.entry.text);
        }
      }
    }
  }

  // ---------------------------------------------------------------------------------
  // The enumeration.

  /** What an enumeration returns: each derivable entry once, at its best match. */
  ghost predicate IsEnumeration(q: Query, entries: set<Entry>, result: seq<Match>) {
    && (forall i, j :: 0 <= i < j < |result| ==> result[i].entry != result[j].entry)
    && (forall i :: 0 <= i < |result| ==> result[i].entry in entries && IsBest(q, result[i].entry, result[i]))
    && (forall e, o :: e in entries && Derives(q, e, o) ==> exists i :: 0 <= i < |result| && result[i].entry == e)
  }

  /** The furthest position recorded for each entry. */
  ghost predicate Furthest(found: map<FoundKey, Match>, keys: seq<FoundKey>, furthest: map<Entry, nat>) {
    && (forall k :: k in keys ==> k.entry in furthest && k.position <= furthest[k.entry])
    && (forall e :: e in furthest ==> FoundKey(e, furthest[e]) in keys)
  }

  function Selected(found: map<FoundKey, Match>, order: seq<FoundKey>, furthest: map<Entry, nat>): (r: seq<Match>)
    requires forall k :: k in order ==> k in found && k.entry in furthest
    ensures forall m :: m in r ==> exists k :: k in order && m == found[k] && k.position == furthest[k.entry]
    ensures forall k :: k in order && k.position == furthest[k.entry] ==> found[k] in r
  {
    if order == [] then []
    else (if order[0].position == furthest[order[0].entry] then [found[order[0]]] else [])
         + Selected(found, order[1..], furthest)
  }

  ghost predicate DistinctEntries(s: seq<Match>) {
    forall i, j :: 0 <= i < j < |s| ==> s[i].entry != s[j].entry
  }

  lemma {:induction false} SelectedDistinct(found: map<FoundKey, Match>, order: seq<FoundKey>, furthest: map<Entry, nat>)
    requires forall k :: k in order ==> k in found && k.entry in furthest
    requires forall k :: k in found ==> found[k].entry == k.entry && found[k].nextPosition == k.position
    requires forall i, j :: 0 <= i < j < |order| ==> order[i] != order[j]
    ensures DistinctEntries(Selected(found, order, furthest))
  {
    if order != [] {
      SelectedDistinct(found, order[1..], furthest);
      var rest := Selected(found, order[1..], furthest);
      forall k | k in order[1..] ensures k != order[0] {
        var i :| 0 <= i < |order[1..]| && order[1..][i] == k;
        assert order[i + 1] == k;
      }
      if order[0].position == furthest[order[0].entry] {
        forall m | m in rest ensures m.entry != order[0].entry {
          var k :| k in order[1..] && m == found[k] && k.position == furthest[k.entry];
        }
        var r := Selected(found, order, furthest);
        assert r == [found[order[0]]] + rest;
        forall j | 0 < j < |r| ensures r[j] == rest[j - 1] && r[j].entry != r[0].entry {
          assert rest[j - 1] in rest;
        }
      } else {
        assert Selected(found, order, furthest) == rest;
      }
    }
  }

  lemma SoundKeys(q: Query, entries: set<Entry>, found: map<FoundKey, Match>)
    requires Sound(q, entries, found)
    ensures forall k :: k in found ==> found[k].entry == k.entry && found[k].nextPosition == k.position && k.entry in entries
  {}

  lemma DerivedIsFound(q: Query, entries: set<Entry>, found: map<FoundKey, Match>, e: Entry, o: Outcome)
    requires Complete(q, entries, found, [], q.start, 0, false) && e in entries && Derives(q, e, o)
    ensures FoundKey(e, o.position) in found && NoWorse(OutcomeOf(found[FoundKey(e, o.position)]), o)
  {
    assert e.syllablePath[0..] == e.syllablePath;
    assert Covered(found, e, o);
  }

  lemma FurthestIsBest(q: Query, entries: set<Entry>, found: map<FoundKey, Match>, order: seq<FoundKey>,
                       furthest: map<Entry, nat>, k: FoundKey)
    requires Sound(q, entries, found) && Complete(q, entries, found, [], q.start, 0, false)
    requires forall k :: k in order <==> k in found
    requires Furthest(found, order, furthest) && k in order && k.position == furthest[k.entry]
    ensures IsBest(q, k.entry, found[k])
  {
    hide Complete, Derives;
    forall o | Derives(q, k.entry, o)
      ensures o.position <= k.position && (o.position == k.position ==> NoWorse(OutcomeOf(found[k]), o))
    {
      DerivedIsFound(q, entries, found, k.entry, o);
      assert FoundKey(k.entry, o.position) in order;
    }
  }

  /** The furthest records of a sound and complete walk are exactly the best matches. */
  lemma SelectedIsEnumeration(q: Query, entries: set<Entry>, found: map<FoundKey, Match>, order: seq<FoundKey>,
                              furthest: map<Entry, nat>, result: seq<Match>)
    requires Sound(q, entries, found) && Complete(q, entries, found, [], q.start, 0, false)
    requires forall i, j :: 0 <= i < j < |order| ==> order[i] != order[j]
    requires forall k :: k in order <==> k in found
    requires Furthest(found, order, furthest)
    requires forall i, j :: 0 <= i < j < |result| ==> result[i] != result[j]
    requires forall m :: m in result <==> m in Selected(found, order, furthest)
    ensures IsEnumeration(q, entries, result)
  {
    hide IsBest, Sound, Complete, Derives, Covered;
    var selected := Selected(found, order, furthest);
    assert forall k :: k in found ==> found[k].entry == k.entry && found[k].nextPosition == k.position && k.entry in entries by {
      SoundKeys(q, entries, found);
    }
    SelectedDistinct(found, order, furthest);
    forall i | 0 <= i < |result| ensures result[i].entry in entries && IsBest(q, result[i].entry, result[i]) {
      assert result[i] in selected;
      var k :| k in order && result[i] == found[k] && k.position == furthest[k.entry];
      FurthestIsBest(q, entries, found, order, furthest, k);
    }
    forall i, j | 0 <= i < j < |result| ensures result[i].entry != result[j].entry {
      assert result[i] in selected && result[j] in selected;
    }
    forall e, o | e in entries && Derives(q, e, o) ensures exists i :: 0 <= i < |result| && result[i].entry == e {
      DerivedIsFound(q, entries, found, e, o);
      assert FoundKey(e, o.position) in order;
      var k := FoundKey(e, furthest[e]);
      assert found[k] in selected;
      assert found[k] in result;
    }
  }

  lemma SortedEnumeration(q: Query, entries: set<Entry>, found: map<FoundKey, Match>, order: seq<FoundKey>, furthest: map<Entry, nat>)
    requires Sound(q, entries, found) && Complete(q, entries, found, [], q.start, 0, false)
    requires forall i, j :: 0 <= i < j < |order| ==> order[i] != order[j]
    requires forall k :: k in order <==> k in found
    requires Furthest(found, order, furthest)
    ensures var r := StableSort(ByRank(q.raw), Selected(found, order, furthest));
            IsEnumeration(q, entries, r) && forall i, j :: 0 <= i < j < |r| ==> MatchLe(q.raw, r[i], r[j])
  {
    var le, values := ByRank(q.raw), Selected(found, order, furthest);
    ByRankIsOrder(q.raw);
    SelectedDistinct(found, order, furthest);
    StableSortOrders(le, values);
    var r := StableSort(le, values);
    SelectedIsEnumeration(q, entries, found, order, furthest, r);
    forall i, j | 0 <= i < j < |r| ensures MatchLe(q.raw, r[i], r[j]) {
      assert le(r[i], r[j]);
    }
  }

  /** No entry has two best matches. */
  lemma BestIsUnique(q: Query, e: Entry, m: Match, m': Match)
    requires IsBest(q, e, m) && IsBest(q, e, m')
    ensures m == m'
  {
    assert Derives(q, e, OutcomeOf(m)) && Derives(q, e, OutcomeOf(m'));
  }

  lemma BestStaysInside(q: Query, e: Entry, m: Match)
    requires IsBest(q, e, m) && q.start <= |q.raw|
    ensures m.nextPosition <= |q.raw|
  {
    AlignsMonotone(q, e.syllablePath, q.start, 0, false, OutcomeOf(m));
  }

  /** Concatenation of syllables. */
  function Spelling(syllables: seq<string>): (r: string) {
    if syllables == [] then "" else syllables[0] + Spelling(syllables[1..])
  }

  ghost predicate SpelledFrom(table: seq<string>, syllables: seq<string>, text: string) {
    (forall s :: s in syllables ==> s in table && s != "") && Spelling(syllables) == text
  }

  lemma {:induction false} SpellingAppends(syllables: seq<string>, s: string)
    ensures Spelling(syllables + [s]) == Spelling(syllables) + s
  {
    if syllables == [] {
      assert [s][1..] == [];
    } else {
      SpellingAppends(syllables[1..], s);
      assert (syllables + [s])[1..] == syllables[1..] + [s];
    }
  }

  /** Some list of syllables spells the first `length` letters. */
  ghost predicate Segmentable(table: seq<string>, raw: string, length: nat)
    requires length <= |raw|
  {
    exists syllables :: SpelledFrom(table, syllables, raw[..length])
  }

  lemma SegmentStep(table: seq<string>, raw: string, length: nat, s: string)
    requires length <= |raw| && Segmentable(table, raw, length) && s in table && s != "" && StartsWith(raw, s, length)
    ensures Segmentable(table, raw, length + |s|)
  {
    var syllables :| SpelledFrom(table, syllables, raw[..length]);
    SpellingAppends(syllables, s);
    assert raw[..length + |s|] == raw[..length] + s;
    assert SpelledFrom(table, syllables + [s], raw[..length + |s|]);
  }

  lemma SplitPrefix(raw: string, length: nat, a: string, b: string)
    requires length <= |raw| && raw[..length] == a + b
    ensures |a| + |b| == length && raw[..length - |b|] == a && raw[length - |b|..length] == b
  {
    assert raw[..length - |b|] == raw[..length][..|a|];
    assert raw[length - |b|..length] == raw[..length][|a|..];
  }

  /** The last syllable of a segmentation sits at a segmentable position. */
  lemma SegmentLast(table: seq<string>, raw: string, length: nat) returns (s: string)
    requires 0 < length <= |raw| && Segmentable(table, raw, length)
    ensures s in table && 0 < |s| <= length && StartsWith(raw, s, length - |s|) && Segmentable(table, raw, length - |s|)
  {
    var syllables :| SpelledFrom(table, syllables, raw[..length]);
    assert syllables != [];
    var front := syllables[..|syllables| - 1];
    s := syllables[|syllables| - 1];
    assert syllables == front + [s];
    SpellingAppends(front, s);
    SplitPrefix(raw, length, Spelling(front), s);
    assert forall x :: x in front ==> x in syllables;
    assert s in syllables;
    assert SpelledFrom(table, front, raw[..length - |s|]);
  }

  lemma EmptyTrie()
    ensures WellFormed(Node([], [], []), {})
  {}

  function Collected(index: seq<Entry>): set<Entry> {
    set e | e in index
  }

  /** Each syllable of the first n sits in the row of its first letter; rows hold nothing else. */
  ghost predicate RowsHold(syllables: seq<string>, n: nat, rows: map<char, seq<string>>)
    requires n <= |syllables|
  {
    && (forall c :: c in rows ==> RowOk(syllables, c, rows[c]))
    && (forall i :: 0 <= i < n && syllables[i] != "" ==> InItsRow(rows, syllables[i]))
  }

  predicate RowOk(syllables: seq<string>, c: char, row: seq<string>) {
    forall s :: s in row ==> s in syllables && s != "" && s[0] == c
  }

  predicate InItsRow(rows: map<char, seq<string>>, s: string)
    requires s != ""
  {
    s[0] in rows && s in rows[s[0]]
  }

  lemma RowAppended(syllables: seq<string>, n: nat, rows: map<char, seq<string>>)
    requires n < |syllables| && RowsHold(syllables, n, rows) && syllables[n] != ""
    ensures var s := syllables[n];
            RowsHold(syllables, n + 1, rows[s[0] := (if s[0] in rows then rows[s[0]] else []) + [s]])
  {
    var s := syllables[n];
    var row := if s[0] in rows then rows[s[0]] else [];
    var rows' := rows[s[0] := row + [s]];
    assert RowOk(syllables, s[0], row + [s]);
    forall i | 0 <= i < n + 1 && syllables[i] != "" ensures InItsRow(rows', syllables[i]) {
      if i < n { assert InItsRow(rows, syllables[i]); } else { assert s in row + [s]; }
    }
  }

  /** The matcher: an immutable trie over the index entries and the syllable table. */
  class PartialPinyinMatcher {
    const root: Node
    const syllables: seq<string>
    const byInitial: map<char, seq<string>>
    const entries: set<Entry>

    ghost predicate Valid() {
      && root.path == [] && WellFormed(root, entries)
      && RowsHold(syllables, |syllables|, byInitial)
    }

    /** Index entries may repeat; each is stored once, at the node of its syllable path. */
    constructor (index: seq<Entry>, syllables: seq<string>)
      ensures Valid() && entries == Collected(index) && this.syllables == syllables
    {
      hide WellFormed, RowsHold, Collected;
      var trie := BuildTrie(index);
      var grouped := GroupByInitial(syllables);
      root := trie;
      this.syllables := syllables;
      byInitial := grouped;
      entries := Collected(index);
    }

    static method BuildTrie(index: seq<Entry>) returns (trie: Node)
      ensures trie.path == [] && WellFormed(trie, Collected(index))
    {
      hide WellFormed;
      trie := Node([], [], []);
      var seen: set<Entry> := {};
      EmptyTrie();
      for n := 0 to |index|
        invariant seen == Collected(index[..n])
        invariant trie.path == [] && WellFormed(trie, seen) && PathsAgree(trie)
      {
        if index[n] !in seen {
          InsertWellFormed(trie, seen, index[n]);
          trie := Insert(trie, index[n]);
          seen := seen + {index[n]};
        }
        assert index[..n + 1] == index[..n] + [index[n]];
      }
      assert index[..|index|] == index;
    }

    static method GroupByInitial(syllables: seq<string>) returns (rows: map<char, seq<string>>)
      ensures RowsHold(syllables, |syllables|, rows)
    {
      rows := map[];
      for n := 0 to |syllables|
        invariant RowsHold(syllables, n, rows)
      {
        var s := syllables[n];
        if s != "" {
          RowAppended(syllables, n, rows);
          rows := rows[s[0] := (if s[0] in rows then rows[s[0]] else []) + [s]];
        }
      }
    }

    /** The input is spelled by complete syllables of the table. */
    method IsCompleteSyllableSequence(raw: string) returns (complete: bool)
      requires Valid()
      ensures complete <==> raw != "" && Segmentable(syllables, raw, |raw|)
    {
      hide WellFormed, Segmentable, RowsHold, Closed;
      if raw == "" { return false; }
      var reachable := new bool[|raw| + 1](i => i == 0);
      NothingIsSegmentable(syllables, raw);
      for pos := 0 to |raw|
        invariant Backed(syllables, raw, reachable[..]) && reachable[0]
        invariant forall i :: 0 <= i < pos ==> Closed(syllables, raw, reachable[..], i)
      {
        Unreached(syllables, raw, reachable[..], pos);
        if reachable[pos] {
          ghost var before := reachable[..];
          MarkFrom(raw, pos, reachable);
          forall i | 0 <= i < pos ensures Closed(syllables, raw, reachable[..], i) {
            StaysClosed(syllables, raw, before, reachable[..], pos, i);
          }
        }
      }
      complete := reachable[|raw|];
      ReachableIsSegmentable(syllables, raw, reachable[..], |raw|);
    }

    /** One row of the reachability table. */
    method MarkFrom(raw: string, pos: nat, reachable: array<bool>)
      requires Valid() && pos < |raw| && reachable.Length == |raw| + 1 && reachable[pos]
      requires Backed(syllables, raw, reachable[..])
      modifies reachable
      ensures Backed(syllables, raw, reachable[..])
      ensures Closed(syllables, raw, reachable[..], pos)
      ensures Marked(old(reachable[..]), reachable[..], pos)
    {
      hide WellFormed, Segmentable, RowsHold;
      var row := if raw[pos] in byInitial then byInitial[raw[pos]] else [];
      RowIsComplete(syllables, byInitial, raw, pos, row);
      for n := 0 to |row|
        invariant Backed(syllables, raw, reachable[..]) && reachable[pos]
        invariant Marked(old(reachable[..]), reachable[..], pos)
        invariant forall k :: 0 <= k < n && StartsWith(raw, row[k], pos) ==> reachable[pos + |row[k]|]
      {
        assert row[n] in row;
        if StartsWith(raw, row[n], pos) {
          SegmentStep(syllables, raw, pos, row[n]);
          reachable[pos + |row[n]|] := true;
        }
      }
    }

    /** The whole enumeration. The batched sort and the native one give the same sequence: the stable
        order of what was selected, ties included. */
    method NeuralMatches(q: Query, cooperative: bool) returns (result: seq<Match>, ghost selected: seq<Match>)
      requires Valid()
      ensures result == StableSort(ByRank(q.raw), selected)
      ensures q.start >= |q.raw| ==> result == []
      ensures q.start < |q.raw| ==> IsEnumeration(q, entries, result)
      ensures forall i, j :: 0 <= i < j < |result| ==> MatchLe(q.raw, result[i], result[j]) && InOrder(q.raw, result[i], result[j])
    {
      if q.start >= |q.raw| { return [], []; }
      var found, order, furthest := Enumerate(q);
      var values := Selected(found, order, furthest);
      selected := values;
      ByRankIsOrder(q.raw);
      if cooperative {
        result := CooperativeSorted(values, ByRank(q.raw));
      } else {
        result := StableSort(ByRank(q.raw), values);
      }
      SortedEnumeration(q, entries, found, order, furthest);
      forall i, j | 0 <= i < j < |result| ensures InOrder(q.raw, result[i], result[j]) { MatchLeIsInOrder(q.raw, result[i], result[j]); }
    }

    /** Walk the trie, then note how far each entry reached. */
    method Enumerate(q: Query) returns (found: map<FoundKey, Match>, order: seq<FoundKey>, furthest: map<Entry, nat>)
      requires Valid() && q.start < |q.raw|
      ensures Sound(q, entries, found) && Complete(q, entries, found, [], q.start, 0, false)
      ensures forall i, j :: 0 <= i < j < |order| ==> order[i] != order[j]
      ensures forall k :: k in order <==> k in found
      ensures Furthest(found, order, furthest)
    {
      var search := new NeuralSearch(q, entries);
      RootLeads(q);
      search.Visit(root, q.start, 0, false);
      found, order := search.found, search.order;
      furthest := FurthestPositions(q, found, order);
    }

    method FurthestPositions(q: Query, ghost found: map<FoundKey, Match>, order: seq<FoundKey>) returns (furthest: map<Entry, nat>)
      requires Sound(q, entries, found) && forall k :: k in order ==> k in found
      ensures Furthest(found, order, furthest)
    {
      furthest := map[];
      for n := 0 to |order|
        invariant Furthest(found, order[..n], furthest)
      {
        hide Derives;
        var k := order[n];
        RecordedBeyondStart(q, entries, found, k);
        var previous := if k.entry in furthest then furthest[k.entry] else q.start;
        furthest := furthest[k.entry := if k.position > previous then k.position else previous];
        assert order[..n + 1] == order[..n] + [k];
      }
      assert order[..|order|] == order;
    }
  }

  lemma RecordedBeyondStart(q: Query, entries: set<Entry>, found: map<FoundKey, Match>, k: FoundKey)
    requires Sound(q, entries, found) && k in found
    ensures k.position > q.start
  {}

  lemma RootLeads(q: Query)
    ensures Leads(q, [], q.start, 0, false)
  {
    forall suffix, o | Aligns(q, suffix, q.start, 0, false, o) ensures Aligns(q, [] + suffix, q.start, 0, false, o) {
      assert [] + suffix == suffix;
    }
  }

  /** Marked positions are segmentable; a closed position has marked every syllable's end. */
  ghost predicate Backed(syllables: seq<string>, raw: string, reachable: seq<bool>) {
    |reachable| == |raw| + 1 && forall i :: 0 <= i <= |raw| && reachable[i] ==> Segmentable(syllables, raw, i)
  }

  ghost predicate Closed(syllables: seq<string>, raw: string, reachable: seq<bool>, i: nat)
    requires |reachable| == |raw| + 1 && i <= |raw|
  {
    reachable[i] ==> forall s :: s in syllables && s != "" && StartsWith(raw, s, i) ==> reachable[i + |s|]
  }

  /** Marking from `pos` only adds marks, and only beyond it. */
  predicate Marked(before: seq<bool>, after: seq<bool>, pos: nat) {
    && |before| == |after|
    && (forall i :: 0 <= i < |before| && before[i] ==> after[i])
    && (forall i :: 0 <= i <= pos && i < |before| ==> after[i] == before[i])
  }

  lemma StaysClosed(syllables: seq<string>, raw: string, before: seq<bool>, after: seq<bool>, pos: nat, i: nat)
    requires |before| == |raw| + 1 && i < pos <= |raw| && Marked(before, after, pos)
    requires Closed(syllables, raw, before, i)
    ensures Closed(syllables, raw, after, i)
  {}

  lemma Unreached(syllables: seq<string>, raw: string, reachable: seq<bool>, i: nat)
    requires |reachable| == |raw| + 1 && i <= |raw|
    ensures !reachable[i] ==> Closed(syllables, raw, reachable, i)
  {}

  lemma NothingIsSegmentable(table: seq<string>, raw: string)
    ensures Segmentable(table, raw, 0)
  {
    assert SpelledFrom(table, [], raw[..0]);
  }

  /** The row of the letter at `pos` holds every syllable that may start there. */
  lemma RowIsComplete(syllables: seq<string>, rows: map<char, seq<string>>, raw: string, pos: nat, row: seq<string>)
    requires RowsHold(syllables, |syllables|, rows) && pos < |raw|
    requires row == if raw[pos] in rows then rows[raw[pos]] else []
    ensures forall s :: s in row ==> s in syllables && s != ""
    ensures forall s :: s in syllables && s != "" && StartsWith(raw, s, pos) ==> s in row
  {
    forall s | s in syllables && s != "" && StartsWith(raw, s, pos) ensures s in row {
      var i :| 0 <= i < |syllables| && syllables[i] == s;
      assert InItsRow(rows, s);
      assert raw[pos..pos + |s|][0] == raw[pos];
    }
  }

  lemma {:induction false} ReachableIsSegmentable(syllables: seq<string>, raw: string, reachable: seq<bool>, length: nat)
    requires |reachable| == |raw| + 1 && length <= |raw| && reachable[0]
    requires forall i :: 0 <= i < |raw| ==> Closed(syllables, raw, reachable, i)
    ensures Segmentable(syllables, raw, length) ==> reachable[length]
  {
    if length > 0 && Segmentable(syllables, raw, length) {
      var s := SegmentLast(syllables, raw, length);
      ReachableIsSegmentable(syllables, raw, reachable, length - |s|);
      assert Closed(syllables, raw, reachable, length - |s|);
    }
  }

  // ---------------------------------------------------------------------------------
  // How the three kinds of enumeration relate.

  /** An alignment consumes at most the letters of the spelling. */
  lemma {:induction false} AlignsWithinSpelling(q: Query, syllables: seq<string>, position: nat, shorthand: nat, incomplete: bool, o: Outcome)
    requires Aligns(q, syllables, position, shorthand, incomplete, o)
    ensures o.position <= position + |Spelling(syllables)|
    decreases |syllables|
  {
    if syllables != [] && position < |q.raw| {
      var s, rest := syllables[0], syllables[1..];
      if TypedInFull(q, s, position) && Aligns(q, rest, position + |s|, shorthand, incomplete, o) {
        AlignsWithinSpelling(q, rest, position + |s|, shorthand, incomplete, o);
      } else if TypedAsInitial(q, s, position) && Aligns(q, rest, position + 1, shorthand + 1, incomplete, o) {
        AlignsWithinSpelling(q, rest, position + 1, shorthand + 1, incomplete, o);
      } else {
        AlignsWithinSpelling(q, rest, |q.raw|, shorthand, true, o);
      }
    }
  }

  /** An exact alignment spells every syllable, at no cost, and is also an ordinary one. */
  lemma {:induction false} ExactAligns(q: Query, syllables: seq<string>, position: nat, shorthand: nat, incomplete: bool, o: Outcome, descendants: bool)
    requires q.exactOnly && Aligns(q, syllables, position, shorthand, incomplete, o)
    ensures o == Outcome(position + |Spelling(syllables)|, shorthand, incomplete, 0)
    ensures Aligns(q.(exactOnly := false, includeDescendants := descendants), syllables, position, shorthand, incomplete, o)
    decreases |syllables|
  {
    if syllables != [] {
      ExactAligns(q, syllables[1..], position + |syllables[0]|, shorthand, incomplete, o, descendants);
    }
  }

  /** The exact enumeration is part of the ordinary one: an entry that is spelled out in
      full can be matched neither further nor more cheaply. */
  lemma ExactIsOrdinary(q: Query, e: Entry, m: Match, descendants: bool)
    requires q.exactOnly && IsBest(q, e, m)
    ensures IsBest(q.(exactOnly := false, includeDescendants := descendants), e, m)
  {
    var q' := q.(exactOnly := false, includeDescendants := descendants);
    ExactAligns(q, e.syllablePath, q.start, 0, false, OutcomeOf(m), descendants);
    forall o | Derives(q', e, o)
      ensures o.position <= m.nextPosition && (o.position == m.nextPosition ==> NoWorse(OutcomeOf(m), o))
    {
      AlignsWithinSpelling(q', e.syllablePath, q.start, 0, false, o);
    }
  }

  /** Leaving descendants out leaves out exactly the alignments that predict syllables. */
  lemma {:induction false} UnextendedAligns(q: Query, syllables: seq<string>, position: nat, shorthand: nat, incomplete: bool, o: Outcome)
    requires q.includeDescendants
    ensures Aligns(q.(includeDescendants := false), syllables, position, shorthand, incomplete, o)
            <==> Aligns(q, syllables, position, shorthand, incomplete, o) && o.predicted == 0
    decreases |syllables|
  {
    if syllables != [] && position < |q.raw| {
      var s, rest := syllables[0], syllables[1..];
      UnextendedAligns(q, rest, position + |s|, shorthand, incomplete, o);
      UnextendedAligns(q, rest, position + 1, shorthand + 1, incomplete, o);
      UnextendedAligns(q, rest, |q.raw|, shorthand, true, o);
    }
  }

  predicate ShortComplete(raw: string, m: Match) {
    m.nextPosition == |raw| && m.completionSyllables == 0
  }

  /** The two-pass suffix scan sees what one pass sees: a whole-input match without
      predicted syllables is best without descendants exactly when it is best with them. */
  lemma ShortMatchesAgree(q: Query, e: Entry, m: Match)
    requires q.includeDescendants && q.start <= |q.raw| && ShortComplete(q.raw, m)
    ensures IsBest(q.(includeDescendants := false), e, m) <==> IsBest(q, e, m)
  {
    var q0 := q.(includeDescendants := false);
    forall o ensures Derives(q0, e, o) <==> Derives(q, e, o) && o.predicted == 0 {
      UnextendedAligns(q, e.syllablePath, q.start, 0, false, o);
    }
    forall o | Derives(q, e, o) ensures o.position <= |q.raw| {
      AlignsMonotone(q, e.syllablePath, q.start, 0, false, o);
    }
  }
}
