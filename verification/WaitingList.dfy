/** Waiting candidates (neural_candidates.py and its page layers): their identities, the lexical
    supplement, what searching may do to them, and the orders they are shown in. */
module WaitingList {
  import opened PinyinMatcher
  import opened SearchBatches
  import opened Wrappers

  datatype Script = Han | Latin | OtherScript

  datatype Kind = Neural | Lexical | Literal

  datatype Candidate = Candidate(text: string, pinyin: seq<string>, consumed: nat, completes: bool, predicted: nat,
                                 script: Script, kind: Kind, tokenPath: seq<int>, score: real, tier: int)

  type Identity = (string, nat)

  /** Whole-input Han candidates of the neural search: what the bucket order is about. */
  predicate Counted(c: Candidate) {
    c.script == Han && c.completes && c.kind != Lexical
  }

  // ---------------------------------------------------------------------------------
  // Identities.

  function IdOf(norm: string -> string, c: Candidate): Identity {
    (norm(c.text), c.consumed)
  }

  ghost predicate NoRepeats(s: seq<Candidate>) {
    forall i, j :: 0 <= i < j < |s| ==> s[i] != s[j]
  }

  /** No identity is shown twice, on pages, in waiting, or in both. */
  ghost predicate Unique(norm: string -> string, published: seq<Candidate>, pending: seq<Candidate>) {
    && NoRepeats(published) && NoRepeats(pending)
    && (forall x, y :: x in published && y in pending ==> IdOf(norm, x) != IdOf(norm, y))
    && (forall x, y :: x in published && y in published && x != y ==> IdOf(norm, x) != IdOf(norm, y))
    && (forall x, y :: x in pending && y in pending && x != y ==> IdOf(norm, x) != IdOf(norm, y))
  }

  ghost predicate Shown(norm: string -> string, published: seq<Candidate>, pending: seq<Candidate>, id: Identity) {
    exists x :: (x in published || x in pending) && IdOf(norm, x) == id
  }

  /** Whatever is shown is known, but for a literal. */
  ghost predicate SeenCovers(norm: string -> string, published: seq<Candidate>, pending: seq<Candidate>, seen: set<Identity>) {
    forall x :: (x in published || x in pending) && x.kind != Literal ==> IdOf(norm, x) in seen
  }

  ghost predicate LiteralShown(published: seq<Candidate>, pending: seq<Candidate>) {
    exists x :: (x in published || x in pending) && x.kind == Literal
  }

  lemma NoNewLiteral(published: seq<Candidate>, before: seq<Candidate>, after: seq<Candidate>)
    requires forall c :: c in after ==> c in before || c.kind == Neural
    ensures LiteralShown(published, after) ==> LiteralShown(published, before)
  {}

  /** No literal that is shown has this identity. */
  ghost predicate NotTheKeys(norm: string -> string, published: seq<Candidate>, pending: seq<Candidate>, id: Identity) {
    forall x :: (x in published || x in pending) && x.kind == Literal ==> IdOf(norm, x) != id
  }

  /** Appending keeps identities unique exactly when the new one is not already shown. */
  lemma AppendUnique(norm: string -> string, published: seq<Candidate>, pending: seq<Candidate>, c: Candidate)
    requires Unique(norm, published, pending)
    ensures Unique(norm, published, pending + [c]) <==> !Shown(norm, published, pending, IdOf(norm, c))
  {
    var more := pending + [c];
    assert c in more && forall x :: x in pending ==> x in more;
    if Shown(norm, published, pending, IdOf(norm, c)) {
      var x :| (x in published || x in pending) && IdOf(norm, x) == IdOf(norm, c);
      if x in pending && x == c {
        var i :| 0 <= i < |pending| && pending[i] == x;
        assert more[i] == more[|pending|];
      }
    } else {
      assert c !in pending;
    }
  }

  lemma FewerUnique(norm: string -> string, published: seq<Candidate>, pending: seq<Candidate>, fewer: seq<Candidate>)
    requires Unique(norm, published, pending) && NoRepeats(fewer) && forall x :: x in fewer ==> x in pending
    ensures Unique(norm, published, fewer)
  {}

  /** Moving candidates from waiting to a page keeps identities unique. */
  lemma MoveUnique(norm: string -> string, published: seq<Candidate>, pending: seq<Candidate>, selected: seq<Candidate>, rest: seq<Candidate>)
    requires Unique(norm, published, pending) && NoRepeats(selected) && NoRepeats(rest)
    requires forall x :: x in selected ==> x in pending
    requires forall x :: x in rest <==> x in pending && x !in selected
    ensures Unique(norm, published + selected, rest)
  {
    var all := published + selected;
    forall i, j | 0 <= i < j < |all| ensures all[i] != all[j] {
      if i < |published| {
        assert all[i] in published;
        if j >= |published| {
          assert all[j] == selected[j - |published|] && all[j] in selected;
          assert IdOf(norm, all[i]) != IdOf(norm, all[j]);
        }
      } else {
        assert all[i] == selected[i - |published|] && all[j] == selected[j - |published|];
      }
    }
  }

  lemma {:induction false} FilterNoRepeats(keep: Candidate -> bool, s: seq<Candidate>)
    requires NoRepeats(s)
    ensures NoRepeats(Filter(keep, s))
  {
    if s != [] {
      FilterNoRepeats(keep, s[1..]);
      var rest := Filter(keep, s[1..]);
      forall x | x in rest ensures x != s[0] {
        var i :| 0 <= i < |s[1..]| && s[1..][i] == x;
        assert s[i + 1] == x;
      }
      if keep(s[0]) {
        assert Filter(keep, s) == [s[0]] + rest;
      } else {
        assert Filter(keep, s) == rest;
      }
    }
  }

  lemma JoinNoRepeats(s: seq<Candidate>, t: seq<Candidate>)
    requires NoRepeats(s) && NoRepeats(t) && forall x :: x in s ==> x !in t
    ensures NoRepeats(s + t)
  {
    var r := s + t;
    forall i, j | 0 <= i < j < |r| ensures r[i] != r[j] {
      if i < |s| <= j {
        assert r[i] in s && r[j] == t[j - |s|];
      }
    }
  }

  lemma OnlyMoved(norm: string -> string, published: seq<Candidate>, pending: seq<Candidate>, selected: seq<Candidate>)
    ensures NoneDropped(norm, published + pending, (published + selected) + Filter((c: Candidate) => c !in selected, pending))
  {
    var rest := Filter((c: Candidate) => c !in selected, pending);
    forall c | c in published + pending ensures c in (published + selected) + rest {
      assert c in published || c in selected || c in rest;
    }
  }

  lemma KnownMoves(norm: string -> string, published: seq<Candidate>, pending: seq<Candidate>, seen: set<Identity>,
                   selected: seq<Candidate>, rest: seq<Candidate>)
    requires Unique(norm, published, pending) && SeenCovers(norm, published, pending, seen) && NoRepeats(selected)
    requires (forall c :: c in selected ==> c in pending) && rest == Filter((c: Candidate) => c !in selected, pending)
    ensures Unique(norm, published + selected, rest) && SeenCovers(norm, published + selected, rest, seen)
  {
    FilterNoRepeats((c: Candidate) => c !in selected, pending);
    MoveUnique(norm, published, pending, selected, rest);
  }

  function RemoveFirst(s: seq<Candidate>, c: Candidate): (r: seq<Candidate>)
    requires c in s
    ensures forall x :: x in r ==> x in s
    ensures NoRepeats(s) ==> NoRepeats(r) && forall x :: x in r <==> x in s && x != c
  {
    if s[0] == c then s[1..]
    else
      RemoveFirstTail(s, c);
      [s[0]] + RemoveFirst(s[1..], c)
  }

  lemma RemoveFirstKeeps(s: seq<Candidate>, c: Candidate, x: Candidate)
    requires c in s && x in s && x != c
    ensures x in RemoveFirst(s, c)
  {
    if s[0] != c {
      RemoveFirstTail(s, c);
      if x != s[0] {
        assert s == [s[0]] + s[1..];
        RemoveFirstKeeps(s[1..], c, x);
      }
    }
  }

  lemma RemoveFirstTail(s: seq<Candidate>, c: Candidate)
    requires c in s && s[0] != c
    ensures c in s[1..] && (NoRepeats(s) ==> NoRepeats(s[1..]) && s[0] !in s[1..])
  {
    var i :| 0 <= i < |s| && s[i] == c;
    assert s[1..][i - 1] == c;
  }

  /** After its lexical double is removed, an identity that may be added is not shown. */
  lemma NotShown(norm: string -> string, published: seq<Candidate>, pending: seq<Candidate>, seen: set<Identity>,
                 doubles: seq<Candidate>, without: seq<Candidate>, id: Identity)
    requires Unique(norm, published, pending) && SeenCovers(norm, published, pending, seen)
    requires (id !in seen || doubles != []) && NotTheKeys(norm, published, pending, id)
    requires forall x :: x in doubles ==> x in pending && IdOf(norm, x) == id
    requires if doubles == [] then without == pending else forall x :: x in without <==> x in pending && x != doubles[0]
    ensures !Shown(norm, published, without, id)
  {
    if doubles != [] { assert doubles[0] in doubles; }
  }

  // ---------------------------------------------------------------------------------
  // What searching may do to the waiting list.

  /** New Han candidates are in no shorter bucket than what is frozen. */
  ghost predicate Longer(before: seq<Candidate>, after: seq<Candidate>, reached: nat) {
    forall c :: c in after ==> c in before || c.script != Han || c.predicted >= reached
  }

  /** What becomes of a candidate: it stays, or a neural one of its identity takes the place of
      a lexical one. */
  ghost predicate Survives(norm: string -> string, c: Candidate, after: seq<Candidate>) {
    c in after || (c.kind == Lexical && exists d :: d in after && d.kind == Neural && IdOf(norm, d) == IdOf(norm, c))
  }

  ghost predicate NoneDropped(norm: string -> string, before: seq<Candidate>, after: seq<Candidate>) {
    forall c :: c in before ==> Survives(norm, c, after)
  }

  /** What searching may do to the waiting list. */
  ghost predicate Gathered(norm: string -> string, before: seq<Candidate>, after: seq<Candidate>, reached: nat) {
    Longer(before, after, reached) && NoneDropped(norm, before, after)
  }

  lemma NoneDroppedTwice(norm: string -> string, a: seq<Candidate>, b: seq<Candidate>, c: seq<Candidate>)
    requires NoneDropped(norm, a, b) && NoneDropped(norm, b, c)
    ensures NoneDropped(norm, a, c)
  {
    forall x | x in a ensures Survives(norm, x, c) {
      if x !in b {
        var d :| d in b && d.kind == Neural && IdOf(norm, d) == IdOf(norm, x);
        assert Survives(norm, d, c);
      }
    }
  }

  lemma GatheredTwice(norm: string -> string, a: seq<Candidate>, b: seq<Candidate>, c: seq<Candidate>, reached: nat)
    requires Gathered(norm, a, b, reached) && Gathered(norm, b, c, reached)
    ensures Gathered(norm, a, c, reached)
  {
    NoneDroppedTwice(norm, a, b, c);
  }

  /** Searching leaves the pages alone. */
  lemma BesidePages(norm: string -> string, published: seq<Candidate>, before: seq<Candidate>, after: seq<Candidate>)
    requires NoneDropped(norm, before, after)
    ensures NoneDropped(norm, published + before, published + after)
  {
    forall x | x in published + before ensures Survives(norm, x, published + after) {
      if x !in published {
        assert Survives(norm, x, after);
        if x !in after {
          var d :| d in after && d.kind == Neural && IdOf(norm, d) == IdOf(norm, x);
          assert d in published + after;
        }
      }
    }
  }

  lemma Unmoved(norm: string -> string, s: seq<Candidate>, reached: nat)
    ensures Gathered(norm, s, s, reached)
  {}

  lemma SameMembers(norm: string -> string, before: seq<Candidate>, after: seq<Candidate>, reached: nat)
    requires forall c :: c in after <==> c in before
    ensures Gathered(norm, before, after, reached)
  {}

  // ---------------------------------------------------------------------------------
  // The lexical supplement, which compares candidates by their text as it stands.

  /** What one batch adds to the waiting list and to the set of seen identities. */
  function Supplemented(pending: seq<Candidate>, seen: set<Identity>, offered: seq<Candidate>): (r: (seq<Candidate>, set<Identity>))
    ensures pending <= r.0
  {
    if offered == [] then (pending, seen)
    else
      var before := Supplemented(pending, seen, offered[..|offered| - 1]);
      var c := offered[|offered| - 1];
      if (c.text, c.consumed) in before.1 then before else (before.0 + [c], before.1 + {(c.text, c.consumed)})
  }

  /** The first of the batch with its own text and keys, which were not known before. */
  ghost predicate Fresh(seen: set<Identity>, offered: seq<Candidate>, i: nat)
    requires i < |offered|
  {
    (offered[i].text, offered[i].consumed) !in seen
    && forall j :: 0 <= j < i ==> (offered[j].text, offered[j].consumed) != (offered[i].text, offered[i].consumed)
  }

  /** Exactly the fresh ones join, and whatever is offered is known. */
  lemma {:induction false} SupplementedExactly(pending: seq<Candidate>, seen: set<Identity>, offered: seq<Candidate>)
    ensures var r := Supplemented(pending, seen, offered);
            && (forall x :: x in r.0 <==> x in pending || exists i: nat :: i < |offered| && Fresh(seen, offered, i) && offered[i] == x)
            && (forall id :: id in r.1 <==> id in seen || exists i: nat :: i < |offered| && (offered[i].text, offered[i].consumed) == id)
  {
    if offered != [] {
      var n := |offered| - 1;
      var front := offered[..n];
      SupplementedExactly(pending, seen, front);
      forall i: nat | i < n ensures Fresh(seen, offered, i) == Fresh(seen, front, i) && front[i] == offered[i] {}
      var id := (offered[n].text, offered[n].consumed);
      assert id in Supplemented(pending, seen, front).1 <==> !Fresh(seen, offered, n) by {
        if j: nat :| j < n && (offered[j].text, offered[j].consumed) == id { assert front[j] == offered[j]; }
      }
    }
  }

  ghost predicate Admitted(pending: seq<Candidate>, seen: set<Identity>, offered: seq<Candidate>, i: nat)
    requires i < |offered|
  {
    (offered[i].text, offered[i].consumed) !in Supplemented(pending, seen, offered[..i]).1
  }

  /** The i-th candidate is turned away, or shows an identity that nothing shows yet. */
  ghost predicate SafeAt(norm: string -> string, published: seq<Candidate>, pending: seq<Candidate>, seen: set<Identity>, offered: seq<Candidate>, i: nat)
    requires i < |offered|
  {
    Admitted(pending, seen, offered, i) ==>
      !Shown(norm, published, Supplemented(pending, seen, offered[..i]).0, IdOf(norm, offered[i]))
  }

  lemma SafeAtPrefix(norm: string -> string, published: seq<Candidate>, pending: seq<Candidate>, seen: set<Identity>, offered: seq<Candidate>, n: nat, i: nat)
    requires i < n <= |offered|
    ensures SafeAt(norm, published, pending, seen, offered[..n], i) == SafeAt(norm, published, pending, seen, offered, i)
  {
    assert offered[..n][..i] == offered[..i];
  }

  /** Exactly when a batch keeps identities unique: no candidate whose own text is new may
      have a normal form that is already shown. */
  lemma {:induction false} SupplementUniqueExactly(norm: string -> string, published: seq<Candidate>, pending: seq<Candidate>,
                                                   seen: set<Identity>, offered: seq<Candidate>)
    requires Unique(norm, published, pending)
    ensures Unique(norm, published, Supplemented(pending, seen, offered).0) <==>
              forall i :: 0 <= i < |offered| ==> SafeAt(norm, published, pending, seen, offered, i)
  {
    hide Unique, Shown, SafeAt;
    if offered != [] {
      var n := |offered| - 1;
      SupplementUniqueExactly(norm, published, pending, seen, offered[..n]);
      forall i | 0 <= i < n ensures SafeAt(norm, published, pending, seen, offered[..n], i) == SafeAt(norm, published, pending, seen, offered, i) {
        SafeAtPrefix(norm, published, pending, seen, offered, n, i);
      }
      LastSafe(norm, published, pending, seen, offered);
    }
  }

  lemma LastSafe(norm: string -> string, published: seq<Candidate>, pending: seq<Candidate>, seen: set<Identity>, offered: seq<Candidate>)
    requires offered != []
    ensures Unique(norm, published, Supplemented(pending, seen, offered).0) <==>
              && Unique(norm, published, Supplemented(pending, seen, offered[..|offered| - 1]).0)
              && SafeAt(norm, published, pending, seen, offered, |offered| - 1)
  {
    hide Unique, Shown;
    var c, before := offered[|offered| - 1], Supplemented(pending, seen, offered[..|offered| - 1]);
    if Unique(norm, published, before.0) {
      AppendUnique(norm, published, before.0, c);
    } else if Unique(norm, published, before.0 + [c]) {
      MoreNotUnique(norm, published, before.0, c);
    }
  }

  lemma MoreNotUnique(norm: string -> string, published: seq<Candidate>, pending: seq<Candidate>, c: Candidate)
    requires Unique(norm, published, pending + [c])
    ensures Unique(norm, published, pending)
  {
    var more := pending + [c];
    assert forall x :: x in pending ==> x in more;
    assert forall i :: 0 <= i < |pending| ==> pending[i] == more[i];
  }

  /** With texts in normal form a batch keeps identities unique and the seen set complete. */
  lemma {:induction false} NormalSupplementUnique(norm: string -> string, published: seq<Candidate>, pending: seq<Candidate>,
                                                  seen: set<Identity>, offered: seq<Candidate>)
    requires Unique(norm, published, pending) && SeenCovers(norm, published, pending, seen)
    requires forall c :: c in offered ==> norm(c.text) == c.text && c.kind != Literal && NotTheKeys(norm, published, pending, IdOf(norm, c))
    ensures var r := Supplemented(pending, seen, offered);
            Unique(norm, published, r.0) && SeenCovers(norm, published, r.0, r.1)
  {
    if offered != [] {
      hide Unique, Shown;
      var front, c := offered[..|offered| - 1], offered[|offered| - 1];
      assert c in offered && forall x :: x in front ==> x in offered;
      NormalSupplementUnique(norm, published, pending, seen, front);
      SupplementedFrom(pending, seen, front);
      var before := Supplemented(pending, seen, front);
      if (c.text, c.consumed) !in before.1 {
        AppendUnique(norm, published, before.0, c);
        NotYetShown(norm, published, before.0, before.1, c);
      }
    }
  }

  lemma {:induction false} SupplementedFrom(pending: seq<Candidate>, seen: set<Identity>, offered: seq<Candidate>)
    ensures forall x :: x in Supplemented(pending, seen, offered).0 ==> x in pending || x in offered
  {
    if offered != [] { SupplementedFrom(pending, seen, offered[..|offered| - 1]); }
  }

  lemma NotYetShown(norm: string -> string, published: seq<Candidate>, pending: seq<Candidate>, seen: set<Identity>, c: Candidate)
    requires SeenCovers(norm, published, pending, seen) && IdOf(norm, c) !in seen && NotTheKeys(norm, published, pending, IdOf(norm, c))
    ensures !Shown(norm, published, pending, IdOf(norm, c))
  {}

  // ---------------------------------------------------------------------------------
  // Orders.

  function ByOrder(rank: Candidate -> int): (Candidate, Candidate) -> bool {
    (a, b) => rank(a) <= rank(b)
  }

  /** Complete typed spellings first, then by tier, whole input, bucket and rank. */
  function ByHan(compact: string, rank: Candidate -> int): (Candidate, Candidate) -> bool {
    (a: Candidate, b: Candidate) => HanLe(compact, rank, a, b)
  }

  /** The key of a Han candidate; `rank` stands for what comes behind the bucket. */
  predicate HanLe(compact: string, rank: Candidate -> int, a: Candidate, b: Candidate) {
    if (Spelling(a.pinyin) == compact) != (Spelling(b.pinyin) == compact) then Spelling(a.pinyin) == compact
    else if a.tier != b.tier then a.tier < b.tier
    else if a.completes != b.completes then a.completes
    else if a.predicted != b.predicted then a.predicted < b.predicted
    else rank(a) <= rank(b)
  }

  /** The components of the order, one behind the other: readings that spell the keys out; the lower tier;
      whole inputs; fewer predicted syllables; the lower rank. */
  ghost predicate InHanOrder(compact: string, rank: Candidate -> int, a: Candidate, b: Candidate) {
    && (Spelling(b.pinyin) == compact ==> Spelling(a.pinyin) == compact)
    && ((Spelling(a.pinyin) == compact <==> Spelling(b.pinyin) == compact) ==>
          && a.tier <= b.tier
          && (a.tier == b.tier ==>
                && (b.completes ==> a.completes)
                && (a.completes == b.completes ==>
                      a.predicted <= b.predicted && (a.predicted == b.predicted ==> rank(a) <= rank(b)))))
  }

  lemma HanLeMeans(compact: string, rank: Candidate -> int, a: Candidate, b: Candidate)
    ensures ByHan(compact, rank)(a, b) <==> InHanOrder(compact, rank, a, b)
  {
    hide Spelling;
    assert ByHan(compact, rank)(a, b) == HanLe(compact, rank, a, b);
  }

  /** Whole-input candidates that only their buckets can order: equally exact and of one tier. */
  predicate SameClass(compact: string, a: Candidate, b: Candidate) {
    (Spelling(a.pinyin) == compact) == (Spelling(b.pinyin) == compact) && a.tier == b.tier
  }

  /** Of two counted candidates of one class, the first is in no longer bucket. */
  predicate InBuckets(compact: string, a: Candidate, b: Candidate) {
    Counted(a) && Counted(b) && SameClass(compact, a, b) ==> a.predicted <= b.predicted
  }

  /** A remark on the order that what waits is sorted into: a longer reading stands before a shorter
      one exactly if it alone is spelled out, or, both or neither being so, it is of a lower tier. */
  lemma LongerGoesFirstExactly(compact: string, rank: Candidate -> int, han: seq<Candidate>, i: nat, j: nat)
    requires SortedBy(ByHan(compact, rank), han) && i < |han| && j < |han| && Counted(han[i]) && Counted(han[j])
    requires han[j].predicted < han[i].predicted
    ensures i < j <==>
              if (Spelling(han[i].pinyin) == compact) != (Spelling(han[j].pinyin) == compact) then Spelling(han[i].pinyin) == compact
              else han[i].tier < han[j].tier
  {
    var le := ByHan(compact, rank);
    if i < j {
      assert le(han[i], han[j]) == HanLe(compact, rank, han[i], han[j]);
    } else {
      assert le(han[j], han[i]) == HanLe(compact, rank, han[j], han[i]);
    }
  }

  /** The Han candidates of some pages ascend by bucket within each class. */
  ghost predicate BucketsAscend(compact: string, s: seq<Candidate>) {
    forall i, j :: 0 <= i < j < |s| ==> InBuckets(compact, s[i], s[j])
  }

  lemma AscendingJoin(compact: string, s: seq<Candidate>, t: seq<Candidate>)
    requires BucketsAscend(compact, s) && BucketsAscend(compact, t) && forall x, y :: x in s && y in t ==> InBuckets(compact, x, y)
    ensures BucketsAscend(compact, s + t)
  {
    hide InBuckets;
    var r := s + t;
    forall i, j | 0 <= i < j < |r| ensures InBuckets(compact, r[i], r[j]) {
      if i < |s| <= j { assert r[i] in s && r[j] == t[j - |s|] && r[j] in t; }
    }
  }

  /** Candidates in the order of their keys ascend by bucket within each class. */
  lemma KeyOrderAscends(compact: string, rank: Candidate -> int, s: seq<Candidate>)
    requires SortedBy(ByHan(compact, rank), s)
    ensures BucketsAscend(compact, s)
  {
    var le := ByHan(compact, rank);
    forall i, j | 0 <= i < j < |s| ensures InBuckets(compact, s[i], s[j]) {
      assert le(s[i], s[j]) == HanLe(compact, rank, s[i], s[j]);
    }
  }

  lemma RanksAreOrders(compact: string, rank: Candidate -> int)
    ensures TotalPreorder(ByOrder(rank)) && TotalPreorder(ByHan(compact, rank))
  {
    var le := ByHan(compact, rank);
    assert forall a, b :: le(a, b) == HanLe(compact, rank, a, b);
    var simple := ByOrder(rank);
    assert forall a, b :: simple(a, b) == (rank(a) <= rank(b));
  }

  lemma SortedSame(le: (Candidate, Candidate) -> bool, s: seq<Candidate>) returns (r: seq<Candidate>)
    requires TotalPreorder(le)
    ensures r == StableSort(le, s) && (forall x :: x in r <==> x in s) && (NoRepeats(s) ==> NoRepeats(r))
  {
    StableSortOrders(le, s);
    r := StableSort(le, s);
  }

  function InScript(script: Script): Candidate -> bool {
    (c: Candidate) => c.script == script
  }

  function Unscripted(): Candidate -> bool {
    (c: Candidate) => c.script == OtherScript
  }

  /** The first hi Han and li Latin candidates, interleaved. */
  ghost predicate Merged(r: seq<Candidate>, han: seq<Candidate>, hi: nat, latin: seq<Candidate>, li: nat)
    requires hi <= |han| && li <= |latin|
  {
    && Filter(InScript(Han), r) == han[..hi] && Filter(InScript(Latin), r) == latin[..li]
    && (forall c :: c in r <==> c in han[..hi] || c in latin[..li])
    && (NoRepeats(han) && NoRepeats(latin) ==> NoRepeats(r))
  }

  ghost predicate Scripts(han: seq<Candidate>, latin: seq<Candidate>) {
    (forall c :: c in han ==> c.script == Han) && (forall c :: c in latin ==> c.script == Latin)
  }

  lemma TakeHan(r: seq<Candidate>, han: seq<Candidate>, hi: nat, latin: seq<Candidate>, li: nat)
    requires hi < |han| && li <= |latin| && Scripts(han, latin) && Merged(r, han, hi, latin, li)
    ensures Merged(r + [han[hi]], han, hi + 1, latin, li)
  {
    hide NoRepeats, Scripts, Filter;
    ScriptsAt(han, hi, latin, li);
    FilterAppend(InScript(Han), r, han[hi]);
    FilterAppend(InScript(Latin), r, han[hi]);
    NextIsNew(r, han, hi, latin, li);
    NextJoins(r, han, hi, latin, li);
    JoinOne(r, han[hi]);
  }

  lemma ScriptsAt(han: seq<Candidate>, hi: nat, latin: seq<Candidate>, li: nat)
    requires Scripts(han, latin)
    ensures hi < |han| ==> han[hi].script == Han
    ensures li < |latin| ==> latin[li].script == Latin
    ensures forall x, y :: x in han && y in latin ==> x != y
  {
    if hi < |han| { assert han[hi] in han; }
    if li < |latin| { assert latin[li] in latin; }
  }

  lemma NextJoins(r: seq<Candidate>, from: seq<Candidate>, i: nat, others: seq<Candidate>, j: nat)
    requires i < |from| && j <= |others| && forall c :: c in r <==> c in from[..i] || c in others[..j]
    ensures forall c :: c in r + [from[i]] <==> c in from[..i + 1] || c in others[..j]
    ensures from[..i + 1] == from[..i] + [from[i]]
  {
    assert from[..i + 1] == from[..i] + [from[i]];
  }

  lemma TakeLatin(r: seq<Candidate>, han: seq<Candidate>, hi: nat, latin: seq<Candidate>, li: nat)
    requires hi <= |han| && li < |latin| && Scripts(han, latin) && Merged(r, han, hi, latin, li)
    ensures Merged(r + [latin[li]], han, hi, latin, li + 1)
  {
    hide NoRepeats, Scripts, Filter;
    ScriptsAt(han, hi, latin, li);
    FilterAppend(InScript(Han), r, latin[li]);
    FilterAppend(InScript(Latin), r, latin[li]);
    NextIsNew(r, latin, li, han, hi);
    NextJoins(r, latin, li, han, hi);
    JoinOne(r, latin[li]);
  }

  lemma JoinOne(r: seq<Candidate>, c: Candidate)
    ensures NoRepeats(r) && c !in r ==> NoRepeats(r + [c])
  {}

  /** The next candidate of the other script after the i-th is the j-th. */
  ghost predicate NextOther(r: seq<Candidate>, i: nat, j: nat)
    requires i < j < |r|
  {
    r[j].script != r[i].script && forall k :: i < k < j ==> r[k].script == r[i].script
  }

  /** Behind the first candidate, Latin stands before the next Han exactly when it scores higher. */
  ghost predicate Greedy(r: seq<Candidate>) {
    forall i, j :: 0 < i < j < |r| && NextOther(r, i, j) ==> Wins(r[i], r[j])
  }

  predicate Wins(a: Candidate, b: Candidate) {
    if a.script == Latin then a.score > b.score else a.score >= b.score
  }

  /** The i-th candidate belongs to the last run of one script. */
  ghost predicate LastRun(r: seq<Candidate>, i: nat)
    requires i < |r|
  {
    forall k :: i < k < |r| ==> r[k].script == r[i].script
  }

  /** The last run has won against the next candidates to come. */
  ghost predicate Ahead(r: seq<Candidate>, han: seq<Candidate>, hi: nat, latin: seq<Candidate>, li: nat) {
    forall i :: 0 < i < |r| && LastRun(r, i) ==>
                  && (r[i].script == Latin && hi < |han| ==> Wins(r[i], han[hi]))
                  && (r[i].script != Latin && li < |latin| ==> Wins(r[i], latin[li]))
  }

  lemma GreedyAppend(r: seq<Candidate>, c: Candidate)
    requires Greedy(r)
    requires forall i :: 0 < i < |r| && LastRun(r, i) && r[i].script != c.script ==> Wins(r[i], c)
    ensures Greedy(r + [c])
  {
    var more := r + [c];
    forall i, j | 0 < i < j < |more| && NextOther(more, i, j) ensures Wins(more[i], more[j]) {
      forall k | i < k < j ensures r[k].script == r[i].script {
        assert more[k].script == more[i].script;
      }
      if j < |r| {
        assert NextOther(r, i, j);
      } else {
        assert LastRun(r, i);
      }
    }
  }

  lemma AheadAppend(r: seq<Candidate>, c: Candidate, han: seq<Candidate>, hi: nat, latin: seq<Candidate>, li: nat, hi': nat, li': nat)
    requires Ahead(r, han, hi, latin, li) && (if c.script == Latin then hi' == hi else li' == li)
    requires c.script == Latin && hi' < |han| ==> Wins(c, han[hi'])
    requires c.script != Latin && li' < |latin| ==> Wins(c, latin[li'])
    requires forall i :: 0 <= i < |r| ==> (r[i].script == Latin || r[i].script == Han)
    requires c.script == Latin || c.script == Han
    ensures Ahead(r + [c], han, hi', latin, li')
  {
    var more := r + [c];
    forall i | 0 < i < |more| && LastRun(more, i)
      ensures (more[i].script == Latin && hi' < |han| ==> Wins(more[i], han[hi'])) && (more[i].script != Latin && li' < |latin| ==> Wins(more[i], latin[li']))
    {
      if i < |r| {
        assert more[|r|].script == more[i].script;
        forall k | i < k < |r| ensures r[k].script == r[i].script {
          assert more[k].script == more[i].script;
        }
        assert LastRun(r, i);
      }
    }
  }

  /** The merge so far, led by the first Han candidate. */
  ghost predicate Merging(r: seq<Candidate>, han: seq<Candidate>, hi: nat, latin: seq<Candidate>, li: nat) {
    && 1 <= hi <= |han| && li <= |latin| && Scripts(han, latin)
    && Merged(r, han, hi, latin, li) && Greedy(r) && Ahead(r, han, hi, latin, li)
    && (forall i :: 0 <= i < |r| ==> (r[i].script == Latin || r[i].script == Han)) && r != [] && r[0] == han[0]
  }

  lemma MergeHan(r: seq<Candidate>, han: seq<Candidate>, hi: nat, latin: seq<Candidate>, li: nat)
    requires Merging(r, han, hi, latin, li) && hi < |han| && (li < |latin| ==> latin[li].score <= han[hi].score)
    ensures Merging(r + [han[hi]], han, hi + 1, latin, li)
  {
    hide Merged, Scripts, Greedy, Ahead, LastRun;
    ScriptsAt(han, hi, latin, li);
    TakeHan(r, han, hi, latin, li);
    WinsAgainst(r, han, hi, latin, li);
    GreedyAppend(r, han[hi]);
    AheadAppend(r, han[hi], han, hi, latin, li, hi + 1, li);
  }

  lemma MergeLatin(r: seq<Candidate>, han: seq<Candidate>, hi: nat, latin: seq<Candidate>, li: nat)
    requires Merging(r, han, hi, latin, li) && li < |latin| && (hi < |han| ==> latin[li].score > han[hi].score)
    ensures Merging(r + [latin[li]], han, hi, latin, li + 1)
  {
    hide Merged, Scripts, Greedy, Ahead, LastRun;
    ScriptsAt(han, hi, latin, li);
    TakeLatin(r, han, hi, latin, li);
    WinsAgainst(r, han, hi, latin, li);
    GreedyAppend(r, latin[li]);
    AheadAppend(r, latin[li], han, hi, latin, li, hi, li + 1);
  }

  lemma MergeStart(han: seq<Candidate>, latin: seq<Candidate>)
    requires Scripts(han, latin) && han != []
    ensures Merging([han[0]], han, 1, latin, 0)
  {
    assert Merged([], han, 0, latin, 0);
    TakeHan([], han, 0, latin, 0);
    assert [] + [han[0]] == [han[0]];
    ScriptsAt(han, 0, latin, 0);
  }

  lemma MergeEnd(r: seq<Candidate>, han: seq<Candidate>, latin: seq<Candidate>)
    requires Merging(r, han, |han|, latin, |latin|)
    ensures Filter(InScript(Han), r) == han && Filter(InScript(Latin), r) == latin && Greedy(r) && r != [] && r[0] == han[0]
    ensures forall c :: c in r <==> c in han || c in latin
    ensures NoRepeats(han) && NoRepeats(latin) ==> NoRepeats(r)
  {
    assert han[..|han|] == han && latin[..|latin|] == latin;
  }

  /** Latin candidates interleave by score; the Han order is kept, and the first Han
      candidate is never displaced. */
  method MergeChineseFirst(han: seq<Candidate>, latin: seq<Candidate>) returns (r: seq<Candidate>)
    requires Scripts(han, latin)
    ensures Filter(InScript(Han), r) == han && Filter(InScript(Latin), r) == latin && Greedy(r)
    ensures han != [] ==> r != [] && r[0] == han[0]
    ensures forall c :: c in r <==> c in han || c in latin
    ensures NoRepeats(han) && NoRepeats(latin) ==> NoRepeats(r)
  {
    if han == [] {
      AllKept(InScript(Latin), latin);
      NoneKept(InScript(Han), latin);
      assert forall i :: 0 <= i < |latin| ==> latin[i] in latin;
      return latin;
    }
    MergeStart(han, latin);
    hide Filter, Greedy, NoRepeats, Merging, Scripts;
    r := [han[0]];
    var hi, li := 1, 0;
    while hi < |han| || li < |latin|
      invariant hi <= |han| && li <= |latin| && Merging(r, han, hi, latin, li)
      decreases |han| - hi + |latin| - li
    {
      if li >= |latin| || (hi < |han| && latin[li].score <= han[hi].score) {
        MergeHan(r, han, hi, latin, li);
        r := r + [han[hi]];
        hi := hi + 1;
      } else {
        MergeLatin(r, han, hi, latin, li);
        r := r + [latin[li]];
        li := li + 1;
      }
    }
    MergeEnd(r, han, latin);
  }

  lemma WinsAgainst(r: seq<Candidate>, han: seq<Candidate>, hi: nat, latin: seq<Candidate>, li: nat)
    requires Ahead(r, han, hi, latin, li) && forall i :: 0 <= i < |r| ==> (r[i].script == Latin || r[i].script == Han)
    ensures hi < |han| ==> forall i :: 0 < i < |r| && LastRun(r, i) && r[i].script != Han ==> Wins(r[i], han[hi])
    ensures li < |latin| ==> forall i :: 0 < i < |r| && LastRun(r, i) && r[i].script != Latin ==> Wins(r[i], latin[li])
  {}

  lemma NextIsNew(r: seq<Candidate>, from: seq<Candidate>, i: nat, others: seq<Candidate>, j: nat)
    requires i < |from| && j <= |others| && forall c :: c in r <==> c in from[..i] || c in others[..j]
    requires forall x, y :: x in from && y in others ==> x != y
    ensures NoRepeats(from) ==> from[i] !in r
  {
    assert from[i] in from;
    forall c | c in others[..j] ensures c != from[i] {
      assert c in others;
    }
    if NoRepeats(from) {
      forall c | c in from[..i] ensures c != from[i] {
        var k :| 0 <= k < i && from[..i][k] == c;
        assert from[k] == c;
      }
    }
  }

  /** The waiting list for Chinese first: Han and Latin in their own orders, merged; the rest as it was. */
  method ChineseOrder(pending: seq<Candidate>, hanLe: (Candidate, Candidate) -> bool, latinLe: (Candidate, Candidate) -> bool)
    returns (r: seq<Candidate>)
    requires TotalPreorder(hanLe) && TotalPreorder(latinLe)
    ensures forall c :: c in r <==> c in pending
    ensures NoRepeats(pending) ==> NoRepeats(r)
    ensures Filter(InScript(Han), r) == StableSort(hanLe, Filter(InScript(Han), pending))
    ensures Filter(InScript(Latin), r) == StableSort(latinLe, Filter(InScript(Latin), pending))
    ensures exists n :: 0 <= n <= |r| && Greedy(r[..n]) && r[n..] == Filter(Unscripted(), pending)
  {
    hide NoRepeats, Filter, StableSort, Greedy, TotalPreorder;
    var han := SortScript(pending, Han, hanLe);
    var latin := SortScript(pending, Latin, latinLe);
    var merged := MergeChineseFirst(han, latin);
    var other := Filter(Unscripted(), pending);
    if NoRepeats(pending) {
      FilterNoRepeats(Unscripted(), pending);
      JoinNoRepeats(merged, other);
    }
    FilterJoin(InScript(Han), merged, other);
    FilterJoin(InScript(Latin), merged, other);
    NoneKept(InScript(Han), other);
    NoneKept(InScript(Latin), other);
    r := merged + other;
    assert r[..|merged|] == merged && r[|merged|..] == other;
  }

  method SortScript(pending: seq<Candidate>, script: Script, le: (Candidate, Candidate) -> bool) returns (r: seq<Candidate>)
    requires TotalPreorder(le)
    ensures r == StableSort(le, Filter(InScript(script), pending))
    ensures forall c :: c in r <==> c in pending && c.script == script
    ensures NoRepeats(pending) ==> NoRepeats(r)
  {
    hide TotalPreorder;
    var kept := Filter(InScript(script), pending);
    if NoRepeats(pending) { FilterNoRepeats(InScript(script), pending); }
    ghost var sorted := SortedSame(le, kept);
    r := StableSort(le, kept);
  }
}
