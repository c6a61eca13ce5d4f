/** Raw typed keys and their letters (pinyin.py): parsing, and the two position maps that
    candidate search composes. Unicode folding has already been applied to the text. */
module PinyinInput {

  import opened Wrappers

  /** The keys as typed, the letters alone, and the letter offsets of the apostrophes. */
  datatype Parsed = Parsed(raw: string, compact: string, boundaries: set<nat>)

  predicate IsKey(c: char) {
    c == '\'' || 'a' <= c <= 'z'
  }

  /** The code points of Han characters. */
  predicate IsHanCharacter(c: char) {
    var point := c as int;
    0x3400 <= point <= 0x4DBF || 0x4E00 <= point <= 0x9FFF || 0xF900 <= point <= 0xFAFF || 0x20000 <= point <= 0x323AF
  }

  predicate HanOnly(text: string) {
    forall i :: 0 <= i < |text| ==> IsHanCharacter(text[i])
  }

  /** Apostrophes separate non-empty groups of letters. */
  predicate Accepted(raw: string) {
    && (forall i :: 0 <= i < |raw| ==> IsKey(raw[i]))
    && (raw != "" ==> raw[0] != '\'' && raw[|raw| - 1] != '\'')
    && (forall i :: 0 < i < |raw| ==> !(raw[i - 1] == '\'' && raw[i] == '\''))
  }

  /** The letters of a piece of input, in order. */
  function Letters(keys: string): (r: string) {
    if keys == "" then ""
    else Letters(keys[..|keys| - 1]) + (if keys[|keys| - 1] == '\'' then "" else [keys[|keys| - 1]])
  }

  /** How many letters precede each apostrophe. */
  ghost function Boundaries(keys: string): set<nat> {
    set i | 0 <= i < |keys| && keys[i] == '\'' :: |Letters(keys[..i])|
  }

  method Parse(raw: string) returns (r: Option<Parsed>)
    ensures r.Some? <==> Accepted(raw)
    ensures r.Some? ==> r.value.raw == raw && r.value.compact == Letters(raw) && r.value.boundaries == Boundaries(raw)
  {
    if !Accepted(raw) { return None; }
    var compact: string, boundaries: set<nat> := "", {};
    for n := 0 to |raw|
      invariant compact == Letters(raw[..n])
      invariant boundaries == set i | 0 <= i < n && raw[i] == '\'' :: |Letters(raw[..i])|
    {
      assert raw[..n + 1][..n] == raw[..n];
      if raw[n] == '\'' {
        boundaries := boundaries + {|compact|};
      } else {
        compact := compact + [raw[n]];
      }
    }
    assert raw[..|raw|] == raw;
    return Some(Parsed(raw, compact, boundaries));
  }

  /** First raw position after `letters` letters and after any apostrophes that follow. */
  method RawCharactersForLetters(p: Parsed, letters: nat) returns (position: nat)
    requires p.compact == Letters(p.raw)
    ensures position == RawPosition(p.raw, letters)
  {
    if letters >= |p.compact| {
      WholeRawPosition(p.raw, letters);
      return |p.raw|;
    }
    var seen := 0;
    position := 0;
    while position < |p.raw| && seen < letters
      invariant position <= |p.raw| && seen <= letters
      invariant seen == |Letters(p.raw[..position])|
      invariant RawPosition(p.raw, letters) == SkipFrom(p.raw, position, letters - seen)
    {
      assert p.raw[..position + 1][..position] == p.raw[..position];
      if p.raw[position] != '\'' {
        seen := seen + 1;
      }
      position := position + 1;
    }
    assert position == |p.raw| ==> p.raw[..position] == p.raw;
    while position < |p.raw| && p.raw[position] == '\''
      invariant position <= |p.raw|
      invariant RawPosition(p.raw, letters) == SkipFrom(p.raw, position, 0)
    {
      position := position + 1;
    }
  }

  /** The position the two loops reach: pass `letters` letters, then pass apostrophes. */
  function SkipFrom(raw: string, position: nat, letters: nat): (r: nat)
    requires position <= |raw|
    ensures position <= r <= |raw|
    decreases |raw| - position
  {
    if position == |raw| then position
    else if raw[position] == '\'' then SkipFrom(raw, position + 1, letters)
    else if letters == 0 then position
    else SkipFrom(raw, position + 1, letters - 1)
  }

  function RawPosition(raw: string, letters: nat): (r: nat)
    ensures r <= |raw|
  {
    SkipFrom(raw, 0, letters)
  }

  lemma {:induction false} SkipCounts(raw: string, position: nat, letters: nat)
    requires position <= |raw|
    ensures var before, after := |Letters(raw[..position])|, |Letters(raw[..SkipFrom(raw, position, letters)])|;
            after == if before + letters <= |Letters(raw)| then before + letters else |Letters(raw)|
    decreases |raw| - position
  {
    LettersGrow(raw, position);
    if position == |raw| {
      assert raw[..position] == raw;
    } else {
      assert raw[..position + 1][..position] == raw[..position];
      LettersGrow(raw, position + 1);
      if raw[position] == '\'' {
        SkipCounts(raw, position + 1, letters);
      } else if letters > 0 {
        SkipCounts(raw, position + 1, letters - 1);
      }
    }
  }

  lemma {:induction false} LettersGrow(raw: string, position: nat)
    requires position <= |raw|
    ensures |Letters(raw[..position])| <= |Letters(raw)|
    decreases |raw| - position
  {
    if position < |raw| {
      assert raw[..position + 1][..position] == raw[..position];
      LettersGrow(raw, position + 1);
    } else {
      assert raw[..position] == raw;
    }
  }

  lemma WholeRawPosition(raw: string, letters: nat)
    requires letters >= |Letters(raw)|
    ensures RawPosition(raw, letters) == |raw|
  {
    SkipToEnd(raw, 0, letters);
  }

  lemma {:induction false} SkipToEnd(raw: string, position: nat, letters: nat)
    requires position <= |raw| && |Letters(raw[..position])| + letters >= |Letters(raw)|
    ensures SkipFrom(raw, position, letters) == |raw|
    decreases |raw| - position
  {
    if position < |raw| {
      assert raw[..position + 1][..position] == raw[..position];
      LettersGrow(raw, position + 1);
      if raw[position] == '\'' {
        SkipToEnd(raw, position + 1, letters);
      } else {
        SkipToEnd(raw, position + 1, letters - 1);
      }
    }
  }

  /** Mapping a letter count to raw keys and counting its letters back is the identity, so
      a search that stores raw positions resumes at the letter it stopped at. */
  lemma RawPositionInverts(raw: string, letters: nat)
    requires letters <= |Letters(raw)|
    ensures |Letters(raw[..RawPosition(raw, letters)])| == letters
  {
    assert raw[..0] == "";
    SkipCounts(raw, 0, letters);
  }

  /** Distinct letter counts keep distinct raw positions: consumed keys identify how much
      of the composition a candidate covers. */
  lemma RawPositionInjective(raw: string, a: nat, b: nat)
    requires a <= |Letters(raw)| && b <= |Letters(raw)| && RawPosition(raw, a) == RawPosition(raw, b)
    ensures a == b
  {
    RawPositionInverts(raw, a);
    RawPositionInverts(raw, b);
  }

  /** A mapped position stands behind the apostrophes there: on a letter, or at the end. */
  lemma {:induction false} SkipStops(raw: string, position: nat, letters: nat)
    requires position <= |raw|
    ensures var p := SkipFrom(raw, position, letters); p < |raw| ==> raw[p] != '\''
    decreases |raw| - position
  {
    if position < |raw| {
      if raw[position] == '\'' {
        SkipStops(raw, position + 1, letters);
      } else if letters > 0 {
        SkipStops(raw, position + 1, letters - 1);
      }
    }
  }

  /** The mapped position of a letter count is exactly the one that has so many letters before it and
      does not stand on an apostrophe; it is the end exactly for all letters. */
  lemma RawPositionExactly(raw: string, letters: nat, p: nat)
    requires letters <= |Letters(raw)| && p <= |raw|
    ensures p == RawPosition(raw, letters) <==> |Letters(raw[..p])| == letters && (p < |raw| ==> raw[p] != '\'')
    ensures RawPosition(raw, letters) == |raw| <==> letters == |Letters(raw)|
  {
    var q := RawPosition(raw, letters);
    SkipStops(raw, 0, letters);
    RawPositionInverts(raw, letters);
    assert raw[..|raw|] == raw;
    if letters == |Letters(raw)| { WholeRawPosition(raw, letters); }
    if |Letters(raw[..p])| == letters {
      if p < q { NextLetterCounts(raw, p, q); }
      if q < p { NextLetterCounts(raw, q, p); }
    }
  }

  /** A letter that stands between two positions is counted at the second one. */
  lemma NextLetterCounts(raw: string, p: nat, q: nat)
    requires p < q <= |raw|
    ensures raw[p] != '\'' ==> |Letters(raw[..p])| < |Letters(raw[..q])|
  {
    assert raw[..p + 1][..p] == raw[..p];
    LettersGrow(raw[..q], p + 1);
    assert raw[..q][..p + 1] == raw[..p + 1];
  }
}
