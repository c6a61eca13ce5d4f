/** Latin roots (neural_candidate_pages_v2.py): the sorted-key lookup of the roots that agree
    with the typed keys, and the bound on how many of them become display candidates. */
module LatinRoots {
  import opened PinyinMatcher
  import opened SearchBatches
  import opened SearchLimits
  import opened Wrappers

  // ---------------------------------------------------------------------------------
  // Vocabulary and prefix agreement.

  datatype Root = Root(text: string, tokenId: int)

  predicate IsLetter(c: char) {
    'a' <= c <= 'z' || 'A' <= c <= 'Z'
  }

  /** A letter, then letters, digits, dots, apostrophes and hyphens. */
  predicate IsLatin(s: string) {
    s != "" && IsLetter(s[0])
    && forall i :: 0 <= i < |s| ==> IsLetter(s[i]) || '0' <= s[i] <= '9' || s[i] == '.' || s[i] == '\'' || s[i] == '-'
  }

  function FoldChar(c: char): char {
    if 'A' <= c <= 'Z' then (c as int + 32) as char else c
  }

  /** Case folding, on the ASCII text that the vocabulary is made of. */
  function Fold(s: string): (r: string)
    ensures |r| == |s|
  {
    seq(|s|, i requires 0 <= i < |s| => FoldChar(s[i]))
  }

  predicate Comparable(raw: string, text: string) {
    raw <= Fold(text) || Fold(text) <= raw
  }

  predicate ValidRoot(r: Root) {
    IsLatin(r.text) && |r.text| <= MAX_LATIN_CHARACTERS
  }

  /** Strings starting with p are exactly those from p up to p followed by the top character. */
  lemma {:induction false} PrefixInterval(p: string, key: string)
    requires forall i :: 0 <= i < |key| ==> key[i] < '\U{FFFF}'
    ensures p <= key <==> TextLe(p, key) && !TextLe(p + "\U{FFFF}", key)
  {
    if p == "" {
      assert p + "\U{FFFF}" == "\U{FFFF}";
    } else if key != "" && p[0] == key[0] {
      PrefixInterval(p[1..], key[1..]);
      assert (p + "\U{FFFF}")[1..] == p[1..] + "\U{FFFF}";
      assert p == [p[0]] + p[1..] && key == [key[0]] + key[1..];
    }
  }

  // ---------------------------------------------------------------------------------
  // The sorted keys.

  ghost predicate Sorted(keys: seq<string>) {
    forall i, j :: 0 <= i <= j < |keys| ==> TextLe(keys[i], keys[j])
  }

  /** The first index whose key is not below x. */
  method BisectLeft(keys: seq<string>, x: string) returns (index: nat)
    requires Sorted(keys)
    ensures index <= |keys|
    ensures forall i :: 0 <= i < |keys| ==> (i < index <==> !TextLe(x, keys[i]))
  {
    var low, high := 0, |keys|;
    while low < high
      invariant 0 <= low <= high <= |keys|
      invariant forall i :: 0 <= i < low ==> !TextLe(x, keys[i])
      invariant forall i :: high <= i < |keys| ==> TextLe(x, keys[i])
    {
      var middle := (low + high) / 2;
      if TextLe(x, keys[middle]) {
        forall i | middle <= i < |keys| ensures TextLe(x, keys[i]) {
          TextLeTransitive(x, keys[middle], keys[i]);
        }
        high := middle;
      } else {
        forall i | 0 <= i <= middle ensures !TextLe(x, keys[i]) {
          NotBefore(x, keys[i], keys[middle]);
        }
        low := middle + 1;
      }
    }
    index := low;
  }

  lemma NotBefore(x: string, a: string, b: string)
    requires !TextLe(x, b) && TextLe(a, b)
    ensures !TextLe(x, a)
  {
    if TextLe(x, a) { TextLeTransitive(x, a, b); }
  }

  /** The first index whose key is above x. */
  method BisectRight(keys: seq<string>, x: string) returns (index: nat)
    requires Sorted(keys)
    ensures index <= |keys|
    ensures forall i :: 0 <= i < |keys| ==> (i < index <==> TextLe(keys[i], x))
  {
    var low, high := 0, |keys|;
    while low < high
      invariant 0 <= low <= high <= |keys|
      invariant forall i :: 0 <= i < low ==> TextLe(keys[i], x)
      invariant forall i :: high <= i < |keys| ==> !TextLe(keys[i], x)
    {
      var middle := (low + high) / 2;
      if TextLe(keys[middle], x) {
        forall i | 0 <= i <= middle ensures TextLe(keys[i], x) {
          TextLeTransitive(keys[i], keys[middle], x);
        }
        low := middle + 1;
      } else {
        forall i | middle <= i < |keys| ensures !TextLe(keys[i], x) {
          if TextLe(keys[i], x) { TextLeTransitive(keys[middle], keys[i], x); }
        }
        high := middle;
      }
    }
    index := low;
  }

  ghost predicate Distinct(s: seq<nat>) {
    forall i, j :: 0 <= i < j < |s| ==> s[i] != s[j]
  }

  /** What has been collected so far: descendants of the keys, and ancestors shorter than n. */
  predicate Found(raw: string, key: string, n: nat) {
    raw <= key || (key < raw && |key| < n)
  }

  /** A folded text and whose it is. */
  datatype Keyed = Keyed(key: string, ordinal: nat)

  function ByText(): (Keyed, Keyed) -> bool {
    (a: Keyed, b: Keyed) => TextLe(a.key, b.key)
  }

  ghost predicate SortedFrom(kept: seq<Root>, sorted: seq<Keyed>) {
    && |sorted| == |kept|
    && (forall i, j :: 0 <= i < j < |sorted| ==> TextLe(sorted[i].key, sorted[j].key) && sorted[i].ordinal != sorted[j].ordinal)
    && (forall i :: 0 <= i < |sorted| ==> sorted[i].ordinal < |kept| && sorted[i].key == Fold(kept[sorted[i].ordinal].text))
    && (forall o :: 0 <= o < |kept| ==> Keyed(Fold(kept[o].text), o) in sorted)
  }

  lemma PlaceOf(kept: seq<Root>, sorted: seq<Keyed>, o: nat) returns (i: nat)
    requires SortedFrom(kept, sorted) && o < |kept|
    ensures i < |sorted| && sorted[i].ordinal == o
  {
    assert Keyed(Fold(kept[o].text), o) in sorted;
    i :| 0 <= i < |sorted| && sorted[i] == Keyed(Fold(kept[o].text), o);
  }

  /** The folded texts in order, and whose they are. */
  ghost predicate Indexes(roots: seq<Root>, keys: seq<string>, ordinals: seq<nat>) {
    && (forall i :: 0 <= i < |roots| ==> ValidRoot(roots[i]))
    && |keys| == |ordinals| == |roots| && Sorted(keys) && Distinct(ordinals)
    && (forall i :: 0 <= i < |keys| ==> ordinals[i] < |roots| && keys[i] == Fold(roots[ordinals[i]].text))
    && (forall o :: 0 <= o < |roots| ==> o in ordinals)
  }

  lemma SortedIndexes(kept: seq<Root>, sorted: seq<Keyed>, keys: seq<string>, ordinals: seq<nat>)
    requires SortedFrom(kept, sorted) && forall i :: 0 <= i < |kept| ==> ValidRoot(kept[i])
    requires |keys| == |ordinals| == |sorted|
    requires forall i :: 0 <= i < |sorted| ==> keys[i] == sorted[i].key && ordinals[i] == sorted[i].ordinal
    ensures Indexes(kept, keys, ordinals)
  {
    hide TextLe, Fold, ValidRoot;
    forall i | 0 <= i < |keys| ensures TextLe(keys[i], keys[i]) { TextLeTotal(keys[i], keys[i]); }
    forall o | 0 <= o < |kept| ensures o in ordinals {
      var i := PlaceOf(kept, sorted, o);
      assert ordinals[i] == o;
    }
  }

  class LatinVocabulary {
    const roots: seq<Root>
    const keys: seq<string>      // folded texts in order
    const ordinals: seq<nat>     // and whose they are

    ghost predicate Valid() {
      Indexes(roots, keys, ordinals)
    }

    constructor (completions: seq<Root>)
      ensures Valid() && roots == Filter((r: Root) => ValidRoot(r), completions)
    {
      hide SortedFrom, Indexes;
      var kept := Filter((r: Root) => ValidRoot(r), completions);
      forall i | 0 <= i < |kept| ensures ValidRoot(kept[i]) { assert kept[i] in kept; }
      var sorted := SortKeys(kept);
      roots := kept;
      var texts := seq(|sorted|, i requires 0 <= i < |sorted| => sorted[i].key);
      var places := seq(|sorted|, i requires 0 <= i < |sorted| => sorted[i].ordinal);
      SortedIndexes(kept, sorted, texts, places);
      keys, ordinals := texts, places;
    }

    static method SortKeys(kept: seq<Root>) returns (sorted: seq<Keyed>)
      ensures SortedFrom(kept, sorted)
    {
      var pairs := seq(|kept|, i requires 0 <= i < |kept| => Keyed(Fold(kept[i].text), i));
      KeyedOrder();
      ghost var result := SortedKeyed(ByText(), pairs);
      sorted := StableSort(ByText(), pairs);
      forall i | 0 <= i < |sorted| ensures sorted[i].ordinal < |kept| && sorted[i].key == Fold(kept[sorted[i].ordinal].text) {
        assert sorted[i] in pairs;
      }
      forall i, j | 0 <= i < j < |sorted| ensures TextLe(sorted[i].key, sorted[j].key) && sorted[i].ordinal != sorted[j].ordinal {
        assert sorted[i] in pairs && sorted[j] in pairs;
        assert ByText()(sorted[i], sorted[j]);
      }
      forall o | 0 <= o < |kept| ensures Keyed(Fold(kept[o].text), o) in sorted {
        assert pairs[o] in pairs;
      }
    }

    /** The collected ordinals are those of the keys found so far, each once. */
    ghost predicate Holds(raw: string, collected: seq<nat>, n: nat) {
      && Distinct(collected) && (forall o :: o in collected ==> o < |roots|)
      && forall i :: 0 <= i < |keys| && i < |ordinals| ==> (ordinals[i] in collected <==> Found(raw, keys[i], n))
    }

    lemma TakeInterval(raw: string, from: nat, to: nat)
      requires Valid() && from <= to <= |keys|
      requires forall i :: 0 <= i < |keys| ==> (from <= i < to <==> raw <= keys[i])
      ensures Holds(raw, ordinals[from..to], 1)
    {
      var r := ordinals[from..to];
      forall i | 0 <= i < |keys| ensures ordinals[i] in r <==> Found(raw, keys[i], 1) {
        IntervalMember(from, to, i);
        KeyNotEmpty(i);
      }
    }

    lemma KeyNotEmpty(i: nat)
      requires Valid() && i < |keys|
      ensures keys[i] != "" && |keys[i]| <= MAX_LATIN_CHARACTERS
      ensures forall k :: 0 <= k < |keys[i]| ==> keys[i][k] < '\U{FFFF}'
    {
      assert ValidRoot(roots[ordinals[i]]);
    }

    lemma IntervalMember(from: nat, to: nat, i: nat)
      requires Valid() && from <= to <= |keys| && i < |keys|
      ensures ordinals[i] in ordinals[from..to] <==> from <= i < to
    {
      if ordinals[i] in ordinals[from..to] {
        var k :| 0 <= k < to - from && ordinals[from..to][k] == ordinals[i];
        assert ordinals[from + k] == ordinals[i];
      }
      if from <= i < to { assert ordinals[from..to][i - from] == ordinals[i]; }
    }

    /** One more ancestor length: the keys equal to that prefix join. */
    lemma TakeAncestor(raw: string, collected: seq<nat>, n: nat, from: nat, to: nat)
      requires Valid() && from <= to <= |keys| && 0 < n < |raw| && Holds(raw, collected, n)
      requires forall i :: 0 <= i < |keys| ==> (from <= i < to <==> keys[i] == raw[..n])
      ensures Holds(raw, collected + ordinals[from..to], n + 1)
    {
      var r := collected + ordinals[from..to];
      forall i | 0 <= i < |keys| ensures ordinals[i] in r <==> Found(raw, keys[i], n + 1) {
        IntervalMember(from, to, i);
        assert keys[i] < raw && |keys[i]| == n ==> keys[i] == raw[..n];
      }
      forall i, j | 0 <= i < j < |r| ensures r[i] != r[j] {
        if i < |collected| <= j {
          assert r[i] in collected && r[j] == ordinals[from + j - |collected|];
          assert !Found(raw, keys[from + j - |collected|], n);
        }
      }
    }

    /** Every root that agrees with the typed keys, in tokenizer order, found through one
        interval for the descendants and one probe per proper prefix. */
    method CompatibleLatinRoots(raw: string) returns (r: seq<Root>)
      requires Valid() && IsLatin(raw)
      ensures r == Filter((x: Root) => Comparable(Fold(raw), x.text), roots)
    {
      hide Distinct, Sorted, Comparable, IsLatin, ValidRoot;
      var folded := Fold(raw);
      var start := BisectLeft(keys, folded);
      var end := BisectLeft(keys, folded + "\U{FFFF}");
      BelowExtension(folded, "\U{FFFF}");
      EndsOrdered(keys, folded, folded + "\U{FFFF}", start, end);
      forall i | 0 <= i < |keys| ensures start <= i < end <==> folded <= keys[i] {
        KeyNotEmpty(i);
        PrefixInterval(folded, keys[i]);
      }
      var collected := ordinals[start..end];
      TakeInterval(folded, start, end);
      var limit := if |folded| < MAX_LATIN_CHARACTERS + 1 then |folded| else MAX_LATIN_CHARACTERS + 1;
      RawNotEmpty(raw);
      for length := 1 to limit
        invariant Holds(folded, collected, length)
      {
        var prefix := folded[..length];
        var from := BisectLeft(keys, prefix);
        var to := BisectRight(keys, prefix);
        ProbeOrdered(keys, prefix, from, to);
        forall i | 0 <= i < |keys| ensures from <= i < to <==> keys[i] == prefix {
          TextLeTotal(prefix, keys[i]);
        }
        TakeAncestor(folded, collected, length, from, to);
        collected := collected + ordinals[from..to];
      }
      r := InTokenizerOrder(folded, collected, limit);
    }

    lemma RawNotEmpty(raw: string)
      requires IsLatin(raw)
      ensures raw != ""
    {}

    method InTokenizerOrder(folded: string, collected: seq<nat>, limit: nat) returns (r: seq<Root>)
      requires Valid() && Holds(folded, collected, limit)
      requires limit == if |folded| < MAX_LATIN_CHARACTERS + 1 then |folded| else MAX_LATIN_CHARACTERS + 1
      ensures r == Filter((x: Root) => Comparable(folded, x.text), roots)
    {
      var ascending := (a: nat, b: nat) => a <= b;
      var sorted := StableSort(ascending, collected);
      AscendingOrdinals(ascending, collected, sorted);
      forall o | 0 <= o < |roots| ensures o in sorted <==> Comparable(folded, roots[o].text) {
        assert o in ordinals;
        var i :| 0 <= i < |ordinals| && ordinals[i] == o;
        KeyNotEmpty(i);
      }
      forall i | 0 <= i < |sorted| ensures sorted[i] < |roots| {
        assert sorted[i] in sorted;
      }
      r := seq(|sorted|, i requires 0 <= i < |sorted| => roots[sorted[i]]);
      OrdinalsAreFilter(folded, roots, sorted, r);
    }
  }

  ghost predicate Rising(s: seq<nat>) {
    forall i, j :: 0 <= i < j < |s| ==> s[i] < s[j]
  }

  lemma AscendingOrdinals(le: (nat, nat) -> bool, s: seq<nat>, r: seq<nat>)
    requires (forall a, b :: le(a, b) == (a <= b)) && Distinct(s) && r == StableSort(le, s)
    ensures Rising(r) && forall o :: o in r <==> o in s
  {
    StableSortOrders(le, s);
    var sorted := StableSort(le, s);
    assert forall i, j :: 0 <= i < j < |sorted| ==> le(sorted[i], sorted[j]) && sorted[i] != sorted[j];
  }

  /** Rising ordinals of exactly the matching roots pick out the filtered list. */
  lemma {:induction false} OrdinalsAreFilter(folded: string, roots: seq<Root>, ordinals: seq<nat>, picked: seq<Root>)
    requires Rising(ordinals) && forall o :: o in ordinals ==> o < |roots|
    requires forall o :: 0 <= o < |roots| ==> (o in ordinals <==> Comparable(folded, roots[o].text))
    requires |picked| == |ordinals| && forall i :: 0 <= i < |picked| ==> ordinals[i] < |roots| && picked[i] == roots[ordinals[i]]
    ensures picked == Filter((x: Root) => Comparable(folded, x.text), roots)
  {
    var keep := (x: Root) => Comparable(folded, x.text);
    if roots == [] {
      HeadIn(ordinals);
    } else {
      hide Filter, Comparable, Rising;
      var last := |roots| - 1;
      assert roots == roots[..last] + [roots[last]];
      FilterAppend(keep, roots[..last], roots[last]);
      if keep(roots[last]) {
        LastOrdinal(ordinals, last);
        var end := |ordinals| - 1;
        StillRising(ordinals, end);
        OrdinalsAreFilter(folded, roots[..last], ordinals[..end], picked[..end]);
        assert picked == picked[..end] + [picked[end]];
      } else {
        OrdinalsAreFilter(folded, roots[..last], ordinals, picked);
      }
    }
  }

  lemma StillRising(ordinals: seq<nat>, end: nat)
    requires Rising(ordinals) && end <= |ordinals|
    ensures Rising(ordinals[..end])
  {}

  lemma LastOrdinal(ordinals: seq<nat>, last: nat)
    requires Rising(ordinals) && last in ordinals && forall o :: o in ordinals ==> o <= last
    ensures ordinals[|ordinals| - 1] == last
    ensures forall o :: o in ordinals[..|ordinals| - 1] <==> o in ordinals && o != last
  {
    var k :| 0 <= k < |ordinals| && ordinals[k] == last;
    var end := |ordinals| - 1;
    assert ordinals[end] in ordinals;
    assert k == end;
    forall o | o in ordinals && o != last ensures o in ordinals[..end] {
      var i :| 0 <= i < |ordinals| && ordinals[i] == o;
      assert ordinals[..end][i] == o;
    }
  }

  lemma KeyedOrder()
    ensures TotalPreorder(ByText())
  {
    forall a: Keyed, b: Keyed, c: Keyed
      ensures TextLe(a.key, b.key) || TextLe(b.key, a.key)
      ensures TextLe(a.key, b.key) && TextLe(b.key, c.key) ==> TextLe(a.key, c.key)
    {
      TextLeTotal(a.key, b.key);
      if TextLe(a.key, b.key) && TextLe(b.key, c.key) { TextLeTransitive(a.key, b.key, c.key); }
    }
    assert forall a, b :: ByText()(a, b) == TextLe(a.key, b.key);
  }

  lemma SortedKeyed(le: (Keyed, Keyed) -> bool, pairs: seq<Keyed>) returns (r: seq<Keyed>)
    requires TotalPreorder(le) && forall i, j :: 0 <= i < j < |pairs| ==> pairs[i] != pairs[j]
    ensures r == StableSort(le, pairs) && |r| == |pairs| && forall x :: x in r <==> x in pairs
    ensures forall i, j :: 0 <= i < j < |r| ==> le(r[i], r[j]) && r[i] != r[j]
  {
    StableSortOrders(le, pairs);
    r := StableSort(le, pairs);
  }

  /** The interval between the two searches is never inverted. */
  lemma EndsOrdered(keys: seq<string>, x: string, y: string, from: nat, to: nat)
    requires TextLe(x, y) && from <= |keys| && to <= |keys|
    requires forall i :: 0 <= i < |keys| ==> (i < from <==> !TextLe(x, keys[i]))
    requires forall i :: 0 <= i < |keys| ==> (i < to <==> !TextLe(y, keys[i]))
    ensures from <= to
  {
    if from > 0 {
      if TextLe(y, keys[from - 1]) { TextLeTransitive(x, y, keys[from - 1]); }
    }
  }

  lemma ProbeOrdered(keys: seq<string>, x: string, from: nat, to: nat)
    requires from <= |keys| && to <= |keys|
    requires forall i :: 0 <= i < |keys| ==> (i < from <==> !TextLe(x, keys[i]))
    requires forall i :: 0 <= i < |keys| ==> (i < to <==> TextLe(keys[i], x))
    ensures from <= to
  {
    if from > 0 { TextLeTotal(x, keys[from - 1]); }
  }

  lemma {:induction false} BelowExtension(p: string, suffix: string)
    ensures TextLe(p, p + suffix)
  {
    if p != "" {
      BelowExtension(p[1..], suffix);
      assert (p + suffix)[1..] == p[1..] + suffix;
    }
  }

  // ---------------------------------------------------------------------------------
  // Bounding the displays.

  /** A display candidate under its folded text. */
  datatype Display = Display(key: string, text: string, tokenPath: seq<int>, score: real)

  predicate PathLe(a: seq<int>, b: seq<int>) {
    a == [] || (b != [] && (a[0] < b[0] || (a[0] == b[0] && PathLe(a[1..], b[1..]))))
  }

  /** The Latin order: score, then folded text, then token path. */
  predicate LatinLe(a: Display, b: Display) {
    if a.score != b.score then a.score > b.score
    else if a.key != b.key then TextLe(a.key, b.key)
    else PathLe(a.tokenPath, b.tokenPath)
  }

  predicate LatinLess(a: Display, b: Display) {
    LatinLe(a, b) && !LatinLe(b, a)
  }

  lemma {:induction false} PathLeOrders(a: seq<int>, b: seq<int>, c: seq<int>)
    ensures PathLe(a, b) || PathLe(b, a)
    ensures PathLe(a, b) && PathLe(b, c) ==> PathLe(a, c)
  {
    if a != [] && b != [] && c != [] { PathLeOrders(a[1..], b[1..], c[1..]); }
    if a != [] && b != [] { PathLeOrders(a[1..], b[1..], []); }
  }

  lemma LatinLeOrders(a: Display, b: Display, c: Display)
    ensures LatinLe(a, b) || LatinLe(b, a)
    ensures LatinLe(a, b) && LatinLe(b, c) ==> LatinLe(a, c)
    ensures a.key != b.key && LatinLe(a, b) ==> LatinLess(a, b)
  {
    PathLeOrders(a.tokenPath, b.tokenPath, c.tokenPath);
    TextLeTotal(a.key, b.key);
    TextLeTotal(b.key, c.key);
    TextLeTotal(a.key, c.key);
    if TextLe(a.key, b.key) && TextLe(b.key, c.key) { TextLeTransitive(a.key, b.key, c.key); }
  }

  lemma LessThan(a: Display, b: Display, c: Display)
    ensures LatinLess(a, b) && LatinLe(b, c) ==> LatinLess(a, c)
    ensures LatinLe(a, b) && LatinLess(b, c) ==> LatinLess(a, c)
  {
    hide LatinLe;
    LatinLeOrders(a, b, c);
    LatinLeOrders(b, c, a);
    LatinLeOrders(c, a, b);
  }

  // The dictionary of the best display per key.

  function Without(best: seq<Display>, x: Display): (r: seq<Display>)
    ensures |r| == |best|
  {
    if best == [] then [] else (if best[0].key == x.key then [x] else [best[0]]) + Without(best[1..], x)
  }

  /** What the dictionary holds for one key after some displays. */
  function BestFor(s: seq<Display>, key: string): Option<Display> {
    if s == [] then None
    else
      var before, x := BestFor(s[..|s| - 1], key), s[|s| - 1];
      if x.key == key && (before.None? || LatinLess(x, before.value)) then Some(x) else before
  }

  ghost predicate KeysDiffer(s: seq<Display>) {
    forall i, j :: 0 <= i < j < |s| ==> s[i].key != s[j].key
  }

  /** The values of the dictionary built from s. */
  ghost predicate IsBest(s: seq<Display>, best: seq<Display>) {
    KeysDiffer(best) && forall x :: x in best <==> BestFor(s, x.key) == Some(x)
  }

  lemma {:induction false} BestHasKey(s: seq<Display>, key: string)
    ensures BestFor(s, key).Some? ==> BestFor(s, key).value.key == key && BestFor(s, key).value in s
    ensures (exists x :: x in s && x.key == key) ==> BestFor(s, key).Some?
  {
    if s != [] {
      BestHasKey(s[..|s| - 1], key);
      assert forall x :: x in s <==> x in s[..|s| - 1] || x == s[|s| - 1];
    }
  }

  /** The components of the Latin order, one behind the other: the higher score, the folded text, the
      token path by its first difference. */
  ghost predicate InLatinOrder(a: Display, b: Display) {
    && a.score >= b.score
    && (a.score == b.score ==>
          && TextLe(a.key, b.key)
          && (a.key == b.key ==> a.tokenPath <= b.tokenPath || FirstDifferenceLess(a.tokenPath, b.tokenPath)))
  }

  ghost predicate FirstDifferenceLess(a: seq<int>, b: seq<int>) {
    exists k :: 0 <= k < |a| && k < |b| && a[..k] == b[..k] && a[k] < b[k]
  }

  lemma {:induction false} PathLeMeans(a: seq<int>, b: seq<int>)
    requires PathLe(a, b)
    ensures a <= b || FirstDifferenceLess(a, b)
  {
    if a != [] && b != [] {
      if a[0] < b[0] {
        assert a[..0] == b[..0];
      } else {
        PathLeMeans(a[1..], b[1..]);
        assert a == [a[0]] + a[1..] && b == [b[0]] + b[1..];
        if k :| 0 <= k < |a[1..]| && k < |b[1..]| && a[1..][..k] == b[1..][..k] && a[1..][k] < b[1..][k] {
          assert a[..k + 1] == [a[0]] + a[1..][..k] && b[..k + 1] == [b[0]] + b[1..][..k] && a[k + 1] < b[k + 1];
        }
      }
    }
  }

  lemma LatinLeMeans(a: Display, b: Display)
    requires LatinLe(a, b)
    ensures InLatinOrder(a, b)
  {
    TextLeTotal(a.key, a.key);
    if a.score == b.score && a.key == b.key { PathLeMeans(a.tokenPath, b.tokenPath); }
  }

  /** What the dictionary holds for a key is the first display of that key in Latin order. */
  lemma {:induction false} BestIsLeast(s: seq<Display>, y: Display)
    requires y in s
    ensures BestFor(s, y.key).Some? && LatinLe(BestFor(s, y.key).value, y) && InLatinOrder(BestFor(s, y.key).value, y)
  {
    hide LatinLe, InLatinOrder;
    var front, last := s[..|s| - 1], s[|s| - 1];
    BestHasKey(s, y.key);
    BestHasKey(front, y.key);
    LatinLeOrders(y, y, y);
    if y in front {
      BestIsLeast(front, y);
      LatinLeOrders(BestFor(s, y.key).value, BestFor(front, y.key).value, y);
    } else {
      assert y == last;
      if BestFor(front, y.key).Some? { LatinLeOrders(BestFor(front, y.key).value, y, y); }
    }
    LatinLeMeans(BestFor(s, y.key).value, y);
  }

  method BestDisplays(s: seq<Display>) returns (best: seq<Display>)
    ensures IsBest(s, best)
  {
    best := [];
    for n := 0 to |s|
      invariant IsBest(s[..n], best)
    {
      assert s[..n + 1] == s[..n] + [s[n]];
      best := Improve(s[..n], best, s[n]);
    }
    assert s[..|s|] == s;
  }

  /** One more display: it enters under a new key, or replaces a strictly later one. */
  method Improve(ghost s: seq<Display>, best: seq<Display>, x: Display) returns (r: seq<Display>)
    requires IsBest(s, best)
    ensures IsBest(s + [x], r)
  {
    hide LatinLess;
    for i := 0 to |best|
      invariant forall j :: 0 <= j < i ==> best[j].key != x.key
    {
      if best[i].key == x.key {
        assert best[i] in best;
        r := if LatinLess(x, best[i]) then best[i := x] else best;
        BestReplaced(s, best, x, i);
        return;
      }
    }
    r := best + [x];
    BestEntered(s, best, x);
  }

  lemma BestReplaced(s: seq<Display>, best: seq<Display>, x: Display, i: nat)
    requires IsBest(s, best) && i < |best| && best[i].key == x.key
    ensures IsBest(s + [x], if LatinLess(x, best[i]) then best[i := x] else best)
  {
    hide LatinLess;
    var r := if LatinLess(x, best[i]) then best[i := x] else best;
    assert best[i] in best;
    assert (s + [x])[..|s|] == s;
    forall y ensures y in r <==> BestFor(s + [x], y.key) == Some(y) {
      if y.key != x.key {
        SameElsewhere(best, x, i, y);
      } else {
        OnlyAt(best, i, y);
        OnlyAt(r, i, y);
      }
    }
  }

  lemma SameElsewhere(best: seq<Display>, x: Display, i: nat, y: Display)
    requires i < |best| && best[i].key == x.key && y.key != x.key
    ensures y in best[i := x] <==> y in best
  {
    if y in best {
      var k :| 0 <= k < |best| && best[k] == y;
      assert best[i := x][k] == y;
    }
    if y in best[i := x] {
      var k :| 0 <= k < |best| && best[i := x][k] == y;
      assert best[k] == y;
    }
  }

  lemma OnlyAt(best: seq<Display>, i: nat, y: Display)
    requires i < |best| && (forall j :: 0 <= j < |best| && j != i ==> best[j].key != best[i].key) && y.key == best[i].key
    ensures y in best <==> y == best[i]
  {}

  lemma BestIsListed(s: seq<Display>, best: seq<Display>, key: string)
    requires IsBest(s, best)
    ensures BestFor(s, key).Some? ==> exists j :: 0 <= j < |best| && best[j].key == key
  {
    BestHasKey(s, key);
    if BestFor(s, key).Some? { assert BestFor(s, key).value in best; }
  }

  lemma BestEntered(s: seq<Display>, best: seq<Display>, x: Display)
    requires IsBest(s, best) && forall j :: 0 <= j < |best| ==> best[j].key != x.key
    ensures IsBest(s + [x], best + [x])
  {
    hide LatinLess;
    assert (s + [x])[..|s|] == s;
    BestIsListed(s, best, x.key);
    forall y ensures y in best + [x] <==> BestFor(s + [x], y.key) == Some(y) {
      assert y in best ==> y.key != x.key;
    }
  }

  // Which displays the bound leaves out.

  /** What a root or cached display must be to be kept, given the winners and the selected keys. */
  predicate Kept(winners: seq<Display>, selected: set<string>, x: Display) {
    x.key in selected || BestFor(winners, x.key).None? || LatinLess(x, BestFor(winners, x.key).value)
  }

  function KeptOnly(winners: seq<Display>, selected: set<string>): Display -> bool {
    (x: Display) => Kept(winners, selected, x)
  }

  function SelectedOnly(selected: set<string>): Display -> bool {
    (x: Display) => x.key in selected
  }

  function Bounded(winners: seq<Display>, cached: seq<Display>, selected: set<string>): seq<Display> {
    Filter(SelectedOnly(selected), winners) + Filter(KeptOnly(winners, selected), cached)
  }

  lemma {:induction false} WinnersFor(s: seq<Display>, selected: set<string>, key: string)
    ensures BestFor(Filter(SelectedOnly(selected), s), key) == if key in selected then BestFor(s, key) else None
  {
    hide LatinLess;
    if s != [] {
      hide BestFor, Filter;
      var front, last := s[..|s| - 1], s[|s| - 1];
      WinnersFor(front, selected, key);
      assert s == front + [last];
      BestForAppend(front, last, key);
      WinnersNext(front, last, selected, key);
    }
  }

  lemma WinnersNext(front: seq<Display>, last: Display, selected: set<string>, key: string)
    ensures BestFor(Filter(SelectedOnly(selected), front + [last]), key)
            == var before := BestFor(Filter(SelectedOnly(selected), front), key); if last.key in selected then Step(before, key, last) else before
  {
    hide LatinLess, BestFor, Filter;
    FilterAppend(SelectedOnly(selected), front, last);
    var kept := Filter(SelectedOnly(selected), front);
    if last.key in selected {
      BestForAppend(kept, last, key);
    } else {
      assert kept + [] == kept;
    }
  }

  /** Per key the bounded dictionary agrees with the unbounded one, or the best is a dropped winner. */
  predicate Agrees(isSelected: bool, winner: Option<Display>, full: Option<Display>, bounded: Option<Display>) {
    && (if isSelected || winner.None? || full != winner then bounded == full else bounded.None?)
    && (winner.Some? ==> full.Some? && LatinLe(full.value, winner.value))
  }

  /** Cached displays that are left out never improve on the winner of their key. */
  lemma {:induction false} BoundedFor(winners: seq<Display>, cached: seq<Display>, selected: set<string>, key: string)
    ensures Agrees(key in selected, BestFor(winners, key), BestFor(winners + cached, key), BestFor(Bounded(winners, cached, selected), key))
  {
    hide LatinLe, LatinLess;
    if cached == [] {
      WinnersFor(winners, selected, key);
      assert winners + cached == winners;
      assert Bounded(winners, cached, selected) == Filter(SelectedOnly(selected), winners);
      if BestFor(winners, key).Some? { LatinLeOrders(BestFor(winners, key).value, BestFor(winners, key).value, BestFor(winners, key).value); }
    } else {
      var front, last := cached[..|cached| - 1], cached[|cached| - 1];
      BoundedFor(winners, front, selected, key);
      assert cached == front + [last];
      NextFor(winners, front, last, selected, key);
      OneMoreCached(winners, selected, key, BestFor(winners + front, key), BestFor(Bounded(winners, front, selected), key), last);
    }
  }

  function Step(before: Option<Display>, key: string, x: Display): Option<Display> {
    if x.key == key && (before.None? || LatinLess(x, before.value)) then Some(x) else before
  }

  lemma BestForAppend(s: seq<Display>, x: Display, key: string)
    ensures BestFor(s + [x], key) == Step(BestFor(s, key), key, x)
  {
    hide LatinLess;
    assert (s + [x])[..|s|] == s;
  }

  lemma NextFor(winners: seq<Display>, front: seq<Display>, last: Display, selected: set<string>, key: string)
    ensures BestFor(winners + (front + [last]), key) == Step(BestFor(winners + front, key), key, last)
    ensures BestFor(Bounded(winners, front + [last], selected), key)
            == var before := BestFor(Bounded(winners, front, selected), key); if Kept(winners, selected, last) then Step(before, key, last) else before
  {
    hide LatinLess, Kept, BestFor;
    FilterAppend(KeptOnly(winners, selected), front, last);
    var full, bounded := winners + front, Bounded(winners, front, selected);
    assert winners + (front + [last]) == full + [last];
    BestForAppend(full, last, key);
    if Kept(winners, selected, last) {
      assert Bounded(winners, front + [last], selected) == bounded + [last];
      BestForAppend(bounded, last, key);
    } else {
      assert Bounded(winners, front + [last], selected) == bounded;
    }
  }

  lemma OneMoreCached(winners: seq<Display>, selected: set<string>, key: string, full: Option<Display>, bounded: Option<Display>, x: Display)
    requires Agrees(key in selected, BestFor(winners, key), full, bounded)
    ensures Agrees(key in selected, BestFor(winners, key), Step(full, key, x), if Kept(winners, selected, x) then Step(bounded, key, x) else bounded)
  {
    hide LatinLe, BestFor;
    var winner := BestFor(winners, key);
    if winner.Some? && full.Some? && x.key == key {
      LatinLeOrders(x, full.value, winner.value);
      LessThan(x, full.value, winner.value);
      LessThan(full.value, x, winner.value);
      LatinLeOrders(winner.value, winner.value, winner.value);
      LatinLeOrders(full.value, x, winner.value);
      LatinLeOrders(winner.value, full.value, x);
    }
  }

  // The first displays, in Latin order.

  function ByLatin(): (Display, Display) -> bool {
    (a: Display, b: Display) => LatinLe(a, b)
  }

  function ByLatinLess(): (Display, Display) -> bool {
    (a: Display, b: Display) => LatinLess(a, b)
  }

  function Keys(s: seq<Display>): (r: set<string>)
    ensures forall x :: x in s ==> x.key in r
    ensures forall k :: k in r ==> exists x :: x in s && x.key == k
  {
    set x | x in s :: x.key
  }

  lemma {:induction false} KeysCount(s: seq<Display>)
    ensures |Keys(s)| <= |s| && (KeysDiffer(s) ==> |Keys(s)| == |s|)
  {
    if s == [] {
      assert Keys(s) == {};
    } else {
      var front, last := s[..|s| - 1], s[|s| - 1];
      KeysCount(front);
      assert forall x :: x in s <==> x in front || x == last;
      assert Keys(s) == Keys(front) + {last.key};
      if KeysDiffer(s) {
        assert forall x :: x in front ==> x.key != last.key;
      }
    }
  }

  /** Displays with different keys, sorted. */
  lemma SortedDisplays(s: seq<Display>) returns (r: seq<Display>)
    requires KeysDiffer(s)
    ensures r == StableSort(ByLatin(), s) && (forall x :: x in r <==> x in s) && KeysDiffer(r)
    ensures InOrder(r)
  {
    hide LatinLe;
    var le := ByLatin();
    forall a: Display, b: Display, c: Display
      ensures LatinLe(a, b) || LatinLe(b, a)
      ensures LatinLe(a, b) && LatinLe(b, c) ==> LatinLe(a, c)
    {
      LatinLeOrders(a, b, c);
    }
    assert forall a, b :: le(a, b) == LatinLe(a, b);
    assert TotalPreorder(le);
    r := SortedDistinct(le, s);
    forall i, j | 0 <= i < j < |r| ensures LatinLess(r[i], r[j]) && r[i].key != r[j].key {
      assert le(r[i], r[j]) && r[i] != r[j] && r[i] in s && r[j] in s;
      KeyDecides(s, r[i], r[j]);
      LatinLeOrders(r[i], r[j], r[j]);
    }
  }

  lemma SortedDistinct(le: (Display, Display) -> bool, s: seq<Display>) returns (r: seq<Display>)
    requires TotalPreorder(le) && KeysDiffer(s)
    ensures r == StableSort(le, s) && forall x :: x in r <==> x in s
    ensures forall i, j :: 0 <= i < j < |r| ==> le(r[i], r[j]) && r[i] != r[j]
  {
    StableSortOrders(le, s);
    r := StableSort(le, s);
  }

  lemma KeyDecides(s: seq<Display>, x: Display, y: Display)
    requires KeysDiffer(s) && x in s && y in s && x != y
    ensures x.key != y.key
  {
    var i :| 0 <= i < |s| && s[i] == x;
    var j :| 0 <= j < |s| && s[j] == y;
    assert i < j || j < i;
  }

  ghost predicate InOrder(s: seq<Display>) {
    forall i, j :: 0 <= i < j < |s| ==> LatinLess(s[i], s[j])
  }

  /** The displays up to z are a prefix of the order. */
  lemma UpTo(s: seq<Display>, z: Display) returns (n: nat)
    requires InOrder(s)
    ensures n <= |s| && forall i :: 0 <= i < |s| ==> (i < n <==> LatinLe(s[i], z))
  {
    hide LatinLe;
    n := 0;
    while n < |s| && LatinLe(s[n], z)
      invariant n <= |s| && forall i :: 0 <= i < n ==> LatinLe(s[i], z)
    {
      n := n + 1;
    }
    forall i | n <= i < |s| ensures !LatinLe(s[i], z) {
      if n < i && LatinLe(s[i], z) {
        LessThan(s[n], s[i], z);
      }
    }
  }

  ghost predicate HasUpTo(s: seq<Display>, key: string, z: Display) {
    exists y :: y in s && y.key == key && LatinLe(y, z)
  }

  /** Two orders that agree up to z begin with the same displays, as many as there are up to z. */
  lemma SameBeginning(full: seq<Display>, bounded: seq<Display>, z: Display, keys: set<string>)
    requires InOrder(full) && InOrder(bounded)
    requires forall x :: LatinLe(x, z) ==> (x in full <==> x in bounded)
    requires forall k :: k in keys ==> HasUpTo(bounded, k, z)
    ensures |keys| <= |full| && |keys| <= |bounded| && full[..|keys|] == bounded[..|keys|]
  {
    hide LatinLe, LatinLess;
    var n := UpTo(full, z);
    var m := UpTo(bounded, z);
    forall x ensures x in full[..n] <==> x in bounded[..m] {
      InPrefix(full, z, n, x);
      InPrefix(bounded, z, m, x);
    }
    PrefixInOrder(full, n);
    PrefixInOrder(bounded, m);
    LessIsAsymmetric();
    IncreasingUnique(ByLatinLess(), full[..n], bounded[..m]);
    forall k | k in keys ensures k in Keys(bounded[..m]) {
      var y :| y in bounded && y.key == k && LatinLe(y, z);
      InPrefix(bounded, z, m, y);
    }
    KeysCount(bounded[..m]);
    Larger(keys, Keys(bounded[..m]));
    assert full[..|keys|] == full[..n][..|keys|] && bounded[..|keys|] == bounded[..m][..|keys|];
  }

  lemma InPrefix(s: seq<Display>, z: Display, n: nat, x: Display)
    requires n <= |s| && forall i :: 0 <= i < |s| ==> (i < n <==> LatinLe(s[i], z))
    ensures x in s[..n] <==> x in s && LatinLe(x, z)
  {
    hide LatinLe;
    if x in s && LatinLe(x, z) {
      var i :| 0 <= i < |s| && s[i] == x;
      assert s[..n][i] == x;
    }
    if x in s[..n] {
      var i :| 0 <= i < n && s[..n][i] == x;
      assert s[i] == x;
    }
  }

  lemma PrefixInOrder(s: seq<Display>, n: nat)
    requires InOrder(s) && n <= |s|
    ensures Increasing(ByLatinLess(), s[..n])
  {
    hide LatinLess;
  }

  lemma LessIsAsymmetric()
    ensures Asymmetric(ByLatinLess())
  {}

  lemma {:induction false} OnlyWinner(winners: seq<Display>, w: Display)
    requires KeysDiffer(winners) && w in winners
    ensures BestFor(winners, w.key) == Some(w)
  {
    var front, last := winners[..|winners| - 1], winners[|winners| - 1];
    assert winners == front + [last];
    if w in front {
      OnlyWinner(front, w);
      KeyDecides(winners, w, last);
    } else {
      BestHasKey(front, w.key);
      forall x | x in front ensures x.key != w.key {
        var i :| 0 <= i < |front| && front[i] == x;
        assert winners[i] == x && winners[|front|] == w;
      }
      NoneFor(front, w.key);
    }
  }

  lemma {:induction false} NoneFor(s: seq<Display>, key: string)
    requires forall x :: x in s ==> x.key != key
    ensures BestFor(s, key).None?
  {
    if s != [] {
      assert s[|s| - 1] in s && forall x :: x in s[..|s| - 1] ==> x in s;
      NoneFor(s[..|s| - 1], key);
    }
  }

  /** Whatever the bound drops comes after the last selected winner. */
  lemma AgreeUpTo(winners: seq<Display>, cached: seq<Display>, order: seq<Display>, limit: nat, full: seq<Display>, bounded: seq<Display>, x: Display)
    requires 0 < limit < |order| && InOrder(order) && (forall y :: y in order <==> y in winners) && LatinLe(x, order[limit - 1])
    requires IsBest(winners + cached, full) && IsBest(Bounded(winners, cached, Keys(order[..limit])), bounded)
    ensures x in full <==> x in bounded
  {
    hide LatinLe;
    var selected, z := Keys(order[..limit]), order[limit - 1];
    BoundedFor(winners, cached, selected, x.key);
    if x in full && BestFor(winners, x.key) == Some(x) && x.key !in selected {
      BestHasKey(winners, x.key);
      var j :| 0 <= j < |order| && order[j] == x;
      NotSelected(order, limit, j);
      LatinLeOrders(z, x, z);
    }
  }

  lemma NotSelected(order: seq<Display>, limit: nat, j: nat)
    requires 0 < limit <= |order| && j < |order| && order[j].key !in Keys(order[..limit]) && InOrder(order)
    ensures LatinLess(order[limit - 1], order[j])
  {
    hide LatinLess;
    SelectedKey(order, limit, j);
  }

  lemma SelectedKey(order: seq<Display>, limit: nat, j: nat)
    requires limit <= |order| && j < |order|
    ensures j < limit ==> order[j].key in Keys(order[..limit])
  {
    if j < limit { assert order[..limit][j] == order[j]; }
  }

  /** Every selected key has a display up to the last selected winner. */
  lemma SelectedHasDisplay(winners: seq<Display>, cached: seq<Display>, order: seq<Display>, limit: nat, bounded: seq<Display>, k: string)
    requires KeysDiffer(winners) && 0 < limit <= |order| && InOrder(order) && (forall y :: y in order <==> y in winners)
    requires IsBest(Bounded(winners, cached, Keys(order[..limit])), bounded) && k in Keys(order[..limit])
    ensures HasUpTo(bounded, k, order[limit - 1])
  {
    hide LatinLe, LatinLess, Bounded, BestFor, KeysDiffer, InOrder;
    var selected, z := Keys(order[..limit]), order[limit - 1];
    var w := WinnerOf(order, limit, k);
    OnlyWinner(winners, w);
    BoundedFor(winners, cached, selected, k);
    BestHasKey(winners + cached, k);
    var y := BestFor(winners + cached, k).value;
    assert y in bounded;
    LatinLeOrders(y, w, z);
  }

  lemma WinnerOf(order: seq<Display>, limit: nat, k: string) returns (w: Display)
    requires 0 < limit <= |order| && InOrder(order) && k in Keys(order[..limit])
    ensures w in order && w.key == k && LatinLe(w, order[limit - 1])
  {
    hide LatinLe;
    w :| w in order[..limit] && w.key == k;
    var i :| 0 <= i < limit && order[..limit][i] == w;
    assert order[i] == w;
    LatinLeOrders(w, w, w);
  }

  /** Keeping only the best `limit` winners leaves the first `limit` displays as they were. */
  lemma BoundKeepsBeginning(winners: seq<Display>, cached: seq<Display>, limit: nat, full: seq<Display>, bounded: seq<Display>)
    requires KeysDiffer(winners) && 0 < limit < |winners| && IsBest(winners + cached, full)
    requires IsBest(Bounded(winners, cached, Keys(StableSort(ByLatin(), winners)[..limit])), bounded)
    ensures First(full, limit) == First(bounded, limit) && limit <= |full| && limit <= |bounded|
  {
    hide LatinLe, LatinLess, Bounded, IsBest, KeysDiffer, InOrder, StableSort;
    var order := SortedDisplays(winners);
    BestKeysDiffer(winners + cached, full);
    BestKeysDiffer(Bounded(winners, cached, Keys(order[..limit])), bounded);
    var u := SortedDisplays(full);
    var b := SortedDisplays(bounded);
    SameCount(order, winners);
    SortedBeginnings(winners, cached, order, limit, full, bounded, u, b);
  }

  lemma SameCount(order: seq<Display>, winners: seq<Display>)
    requires KeysDiffer(order) && KeysDiffer(winners) && forall x :: x in order <==> x in winners
    ensures |order| == |winners|
  {
    KeysCount(order);
    KeysCount(winners);
    assert Keys(order) == Keys(winners);
  }

  lemma SortedBeginnings(winners: seq<Display>, cached: seq<Display>, order: seq<Display>, limit: nat,
                         full: seq<Display>, bounded: seq<Display>, u: seq<Display>, b: seq<Display>)
    requires KeysDiffer(winners) && KeysDiffer(order) && InOrder(order) && (forall y :: y in order <==> y in winners) && 0 < limit < |order|
    requires IsBest(winners + cached, full) && IsBest(Bounded(winners, cached, Keys(order[..limit])), bounded)
    requires InOrder(u) && (forall x :: x in u <==> x in full) && InOrder(b) && forall x :: x in b <==> x in bounded
    ensures limit <= |u| && limit <= |b| && u[..limit] == b[..limit]
  {
    var z, keys := order[limit - 1], Keys(order[..limit]);
    assert |keys| == limit by {
      assert KeysDiffer(order[..limit]);
      KeysCount(order[..limit]);
    }
    hide LatinLe, LatinLess, Bounded, IsBest, KeysDiffer, InOrder, Keys;
    forall x | LatinLe(x, z) ensures x in u <==> x in b {
      AgreeUpTo(winners, cached, order, limit, full, bounded, x);
    }
    forall k | k in keys ensures HasUpTo(b, k, z) {
      SelectedHasDisplay(winners, cached, order, limit, bounded, k);
    }
    SameBeginning(u, b, z, keys);
  }

  lemma BestKeysDiffer(s: seq<Display>, best: seq<Display>)
    requires IsBest(s, best)
    ensures KeysDiffer(best)
  {}

  function First(s: seq<Display>, limit: nat): seq<Display> {
    var sorted := StableSort(ByLatin(), s);
    if |sorted| <= limit then sorted else sorted[..limit]
  }

  ghost function Identities(norm: string -> string, s: seq<Display>): set<string> {
    set x | x in s :: norm(x.text)
  }

  function Omitted(winners: seq<Display>, selected: set<string>, shown: set<string>): seq<Display> {
    Filter((x: Display) => x.key !in selected && x.key !in shown, winners)
  }

  /** The shown displays and the omitted winners together have exactly the unbounded identities. */
  lemma BoundKeepsIdentities(norm: string -> string, winners: seq<Display>, cached: seq<Display>, selected: set<string>, full: seq<Display>, bounded: seq<Display>)
    requires KeysDiffer(winners) && IsBest(winners + cached, full) && IsBest(Bounded(winners, cached, selected), bounded)
    ensures Identities(norm, full) == Identities(norm, bounded) + Identities(norm, Omitted(winners, selected, Keys(bounded)))
  {
    hide LatinLe, LatinLess, Bounded;
    var omitted := Omitted(winners, selected, Keys(bounded));
    forall x | x in full ensures x in bounded || x in omitted {
      BoundedFor(winners, cached, selected, x.key);
      if x !in bounded {
        BestHasKey(winners, x.key);
        NotShown(Bounded(winners, cached, selected), bounded, x.key);
      }
    }
    forall x | x in bounded ensures x in full {
      BoundedFor(winners, cached, selected, x.key);
    }
    forall x | x in omitted ensures x in full {
      OnlyWinner(winners, x);
      BoundedFor(winners, cached, selected, x.key);
      NotShown(Bounded(winners, cached, selected), bounded, x.key);
    }
  }

  lemma NotShown(s: seq<Display>, best: seq<Display>, key: string)
    requires IsBest(s, best)
    ensures key in Keys(best) <==> BestFor(s, key).Some?
  {
    hide LatinLess;
    BestHasKey(s, key);
    if BestFor(s, key).Some? { assert BestFor(s, key).value in best; }
  }

  /** The first displays, and the identities of displays and omitted ones together, are those of
      the construction without a bound. */
  ghost predicate AsUnbounded(norm: string -> string, roots: seq<Display>, cached: seq<Display>, displays: seq<Display>, omitted: seq<Display>) {
    exists winners, unbounded ::
      && IsBest(roots, winners) && IsBest(winners + cached, unbounded)
      && First(displays, MAX_FROZEN_CANDIDATES) == First(unbounded, MAX_FROZEN_CANDIDATES)
      && Identities(norm, unbounded) == Identities(norm, displays) + Identities(norm, omitted)
  }

  /** The display candidates of a root search, with the identities left out by the bound. */
  method LatinDisplays(roots: seq<Display>, cached: seq<Display>, bound: bool, ghost norm: string -> string)
    returns (displays: seq<Display>, omitted: seq<Display>)
    ensures AsUnbounded(norm, roots, cached, displays, omitted)
  {
    hide LatinLess, LatinLe, IsBest, First, Identities;
    var winners := BestDisplays(roots);
    var unbounded := BestDisplays(winners + cached);
    if bound && |winners| > MAX_FROZEN_CANDIDATES {
      var order := StableSort(ByLatin(), winners);
      var selected := Keys(order[..MAX_FROZEN_CANDIDATES]);
      displays := BestDisplays(Bounded(winners, cached, selected));
      omitted := Omitted(winners, selected, Keys(displays));
      BestKeysDiffer(roots, winners);
      BoundKeepsBeginning(winners, cached, MAX_FROZEN_CANDIDATES, unbounded, displays);
      BoundKeepsIdentities(norm, winners, cached, selected, unbounded, displays);
    } else {
      displays, omitted := unbounded, [];
      assert Identities(norm, displays) == Identities(norm, displays) + Identities(norm, []) by { NoIdentities(norm); }
    }
  }

  lemma NoIdentities(norm: string -> string)
    ensures Identities(norm, []) == {}
  {}
}
