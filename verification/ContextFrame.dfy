/** The editor context frame (context_ipc_protocol.cc): its byte format, the trimming that keeps
    captured text valid (surrounding_text_edit_session.cc), and the receiver that accepts frames. */
module ContextFrame {
  import opened Wrappers

  type U8 = x: int | 0 <= x < 0x100
  type U16 = x: int | 0 <= x < 0x1_0000
  type U32 = x: int | 0 <= x < 0x1_0000_0000
  type U64 = x: int | 0 <= x < 0x1_0000_0000_0000_0000

  const MAGIC: U32 := 0x5443574e
  const VERSION: U16 := 1
  const HEADER_BYTES: nat := 44
  const CAPABILITY_BYTES: nat := 16
  const MAX_BEFORE_UNITS: U32 := 32768
  const MAX_AFTER_UNITS: U32 := 4096
  const MAX_FRAME_BYTES: nat := HEADER_BYTES + 2 * (MAX_BEFORE_UNITS + MAX_AFTER_UNITS)

  const KIND_CONTEXT: U8 := 1
  const KIND_CLEAR: U8 := 2
  const SCOPE_PASSWORD: U8 := 2

  /** The enumerations arrive as arbitrary bytes; validation decides which are known. */
  datatype Frame = Frame(kind: U8, scope: U8, pid: U32, revision: U64, capability: seq<U8>, before: seq<U16>, after: seq<U16>)

  // ---------------------------------------------------------------------------------
  // UTF-16 (RFC 2781, section 2.2).

  predicate High(u: U16) { 0xD800 <= u <= 0xDBFF }

  predicate Low(u: U16) { 0xDC00 <= u <= 0xDFFF }

  /** Among the first n units, a high surrogate is followed by a low one, and a low one preceded by a high one. */
  predicate PairedAt(s: seq<U16>, i: nat, n: nat)
    requires i < n <= |s|
  {
    (High(s[i]) ==> i + 1 < n && Low(s[i + 1])) && (Low(s[i]) ==> i > 0 && High(s[i - 1]))
  }

  /** Surrogates come in pairs, high then low. */
  ghost predicate ValidUtf16(s: seq<U16>) {
    forall i :: 0 <= i < |s| ==> PairedAt(s, i, |s|)
  }

  method IsValidUtf16(text: seq<U16>) returns (valid: bool)
    ensures valid <==> ValidUtf16(text)
  {
    var index := 0;
    while index < |text|
      invariant 0 <= index <= |text|
      invariant forall i :: 0 <= i < index ==> PairedAt(text, i, index)
    {
      assert index > 0 ==> PairedAt(text, index - 1, index);
      if High(text[index]) {
        if index + 1 >= |text| || !Low(text[index + 1]) {
          assert !PairedAt(text, index, |text|);
          return false;
        }
        StillPaired(text, index, index + 2);
        index := index + 2;
      } else if Low(text[index]) {
        assert !PairedAt(text, index, |text|);
        return false;
      } else {
        StillPaired(text, index, index + 1);
        index := index + 1;
      }
    }
    valid := true;
  }

  lemma StillPaired(s: seq<U16>, n: nat, m: nat)
    requires n <= m <= |s| && forall i :: 0 <= i < n ==> PairedAt(s, i, n)
    ensures forall i :: 0 <= i < n ==> PairedAt(s, i, m)
  {
    forall i | 0 <= i < n ensures PairedAt(s, i, m) {
      assert PairedAt(s, i, n);
    }
  }

  /** Drop a leading low and a trailing high surrogate. */
  function Trimmed(text: seq<U16>): seq<U16> {
    var front := if text != [] && Low(text[0]) then text[1..] else text;
    if front != [] && High(front[|front| - 1]) then front[..|front| - 1] else front
  }

  method TrimUnpairedUtf16Edges(text: seq<U16>) returns (r: seq<U16>)
    ensures r == Trimmed(text)
  {
    r := text;
    if r == [] { return; }
    if Low(r[0]) { r := r[1..]; }
    if r != [] && High(r[|r| - 1]) { r := r[..|r| - 1]; }
  }

  /** Where the trimmed window lies in the text. */
  function First(text: seq<U16>, from: nat, to: nat): (r: nat)
    requires from <= to <= |text|
    ensures from <= r <= to
  {
    if from < to && Low(text[from]) then from + 1 else from
  }

  function Last(text: seq<U16>, from: nat, to: nat): (r: nat)
    requires from <= to <= |text|
    ensures First(text, from, to) <= r <= to
  {
    if First(text, from, to) < to && High(text[to - 1]) then to - 1 else to
  }

  lemma TrimmedIsWindow(text: seq<U16>, from: nat, to: nat)
    requires from <= to <= |text|
    ensures Trimmed(text[from..to]) == text[First(text, from, to)..Last(text, from, to)]
  {
    hide High, Low;
    var window, first := text[from..to], First(text, from, to);
    if from < to {
      assert window[0] == text[from];
      assert window[1..] == text[from + 1..to];
    }
    if first < to {
      var front := text[first..to];
      assert front[|front| - 1] == text[to - 1];
      assert front[..|front| - 1] == text[first..to - 1];
    }
  }

  /** Any window of valid text is valid after its edges are trimmed, and loses only halves of
      pairs that the window itself has cut. */
  lemma TrimmedWindowIsValid(text: seq<U16>, from: nat, to: nat)
    requires ValidUtf16(text) && from <= to <= |text|
    ensures ValidUtf16(Trimmed(text[from..to]))
    ensures var first, last := First(text, from, to), Last(text, from, to);
            && Trimmed(text[from..to]) == text[first..last]
            && (first > from ==> from > 0 && High(text[from - 1]))
            && (last < to ==> to < |text| && Low(text[to]))
  {
    hide Trimmed;
    TrimmedIsWindow(text, from, to);
    var first, last := First(text, from, to), Last(text, from, to);
    var r := text[first..last];
    assert from < to ==> PairedAt(text, from, |text|) && PairedAt(text, to - 1, |text|);
    forall i | 0 <= i < |r| ensures PairedAt(r, i, |r|) {
      assert r[i] == text[first + i] && PairedAt(text, first + i, |text|);
      if Low(r[i]) && i == 0 {
        LeadingLow(text, from, to);
      }
    }
  }

  /** A window cannot begin with two low surrogates. */
  lemma LeadingLow(text: seq<U16>, from: nat, to: nat)
    requires ValidUtf16(text) && from < to <= |text|
    ensures Low(text[from]) && from + 1 < to ==> !Low(text[from + 1])
  {
    if from + 1 < to { assert PairedAt(text, from + 1, |text|); }
  }

  // ---------------------------------------------------------------------------------
  // Little-endian numbers.

  function Pow256(n: nat): (r: nat)
    ensures r > 0
  {
    if n == 0 then 1 else 256 * Pow256(n - 1)
  }

  function Bytes(value: nat, width: nat): (r: seq<U8>)
    ensures |r| == width
  {
    if width == 0 then [] else [value % 256] + Bytes(value / 256, width - 1)
  }

  function Value(bytes: seq<U8>): nat {
    if bytes == [] then 0 else bytes[0] + 256 * Value(bytes[1..])
  }

  lemma {:induction false} ValueOfBytes(value: nat, width: nat)
    requires value < Pow256(width)
    ensures Value(Bytes(value, width)) == value
  {
    if width > 0 {
      ValueOfBytes(value / 256, width - 1);
      assert Bytes(value, width)[1..] == Bytes(value / 256, width - 1);
    }
  }

  lemma LowByte(byte: U8, rest: nat)
    ensures (byte + 256 * rest) % 256 == byte && (byte + 256 * rest) / 256 == rest
  {}

  lemma {:induction false} BytesOfValue(bytes: seq<U8>)
    ensures Bytes(Value(bytes), |bytes|) == bytes && Value(bytes) < Pow256(|bytes|)
  {
    if bytes != [] {
      BytesOfValue(bytes[1..]);
      var rest, width := Value(bytes[1..]), |bytes|;
      assert Value(bytes) == bytes[0] + 256 * rest;
      assert Pow256(width) == 256 * Pow256(width - 1);
      LowByte(bytes[0], rest);
      assert bytes == [bytes[0]] + bytes[1..];
    }
  }

  lemma Widths()
    ensures Pow256(2) == 0x1_0000 && Pow256(4) == 0x1_0000_0000 && Pow256(8) == 0x1_0000_0000_0000_0000
  {
    assert Pow256(1) == 256;
    assert Pow256(2) == 0x1_0000;
    assert Pow256(3) == 256 * Pow256(2) == 0x100_0000;
    assert Pow256(4) == 256 * Pow256(3) == 0x1_0000_0000;
    assert Pow256(5) == 256 * Pow256(4) == 0x100_0000_0000;
    assert Pow256(6) == 256 * Pow256(5) == 0x1_0000_0000_0000;
    assert Pow256(7) == 256 * Pow256(6) == 0x100_0000_0000_0000;
    assert Pow256(8) == 256 * Pow256(7);
  }

  /** AppendU16, AppendU32 and AppendU64: the low byte first. */
  method AppendUnsigned(value: nat, width: nat, output: seq<U8>) returns (r: seq<U8>)
    ensures r == output + Bytes(value, width)
  {
    r := output;
    var left := value;
    for index := 0 to width
      invariant output + Bytes(value, width) == r + Bytes(left, width - index)
    {
      r := r + [left % 256];
      left := left / 256;
    }
  }

  /** ReadU16, ReadU32 and ReadU64: bytes shifted into place one after another. */
  method ReadUnsigned(bytes: seq<U8>, offset: nat, width: nat) returns (value: nat)
    requires offset + width <= |bytes|
    ensures value == Value(bytes[offset..offset + width])
  {
    value := 0;
    var index, weight := 0, 1;
    while index < width
      invariant 0 <= index <= width && weight == Pow256(index)
      invariant Value(bytes[offset..offset + width]) == value + weight * Value(bytes[offset + index..offset + width])
    {
      var rest := bytes[offset + index..offset + width];
      assert rest[1..] == bytes[offset + index + 1..offset + width];
      Shift(weight, bytes[offset + index], Value(rest[1..]));
      value := value + bytes[offset + index] * weight;
      weight := 256 * weight;
      index := index + 1;
    }
    assert bytes[offset + width..offset + width] == [];
  }

  lemma Shift(weight: nat, byte: nat, rest: nat)
    ensures weight * (byte + 256 * rest) == byte * weight + 256 * weight * rest
  {}

  function TextBytes(text: seq<U16>): (r: seq<U8>)
    ensures |r| == 2 * |text|
  {
    if text == [] then [] else TextBytes(text[..|text| - 1]) + Bytes(text[|text| - 1], 2)
  }

  lemma Unit(bytes: seq<U8>)
    requires |bytes| == 2
    ensures Value(bytes) < 0x1_0000 && Bytes(Value(bytes), 2) == bytes
  {
    BytesOfValue(bytes);
    Widths();
  }

  function TextOf(bytes: seq<U8>): (r: seq<U16>)
    requires |bytes| % 2 == 0
    ensures 2 * |r| == |bytes|
  {
    if bytes == [] then []
    else
      Unit(bytes[|bytes| - 2..]);
      TextOf(bytes[..|bytes| - 2]) + [Value(bytes[|bytes| - 2..])]
  }

  lemma {:induction false} TextRoundTrip(text: seq<U16>)
    ensures TextOf(TextBytes(text)) == text
  {
    if text != [] {
      var front, last := text[..|text| - 1], text[|text| - 1];
      TextRoundTrip(front);
      var all := TextBytes(text);
      assert all[..|all| - 2] == TextBytes(front) && all[|all| - 2..] == Bytes(last, 2);
      Widths();
      ValueOfBytes(last, 2);
    }
  }

  lemma {:induction false} BytesRoundTrip(bytes: seq<U8>)
    requires |bytes| % 2 == 0
    ensures TextBytes(TextOf(bytes)) == bytes
  {
    if bytes != [] {
      var front, last := bytes[..|bytes| - 2], bytes[|bytes| - 2..];
      BytesRoundTrip(front);
      Unit(last);
      var text := TextOf(bytes);
      assert text[..|text| - 1] == TextOf(front);
      assert bytes == front + last;
    }
  }

  // ---------------------------------------------------------------------------------
  // The codec.

  predicate ValidHeader(f: Frame) {
    && f.kind in {KIND_CONTEXT, KIND_CLEAR} && f.scope in {0, 1, SCOPE_PASSWORD}
    && f.pid != 0 && f.revision != 0
    && exists i :: 0 <= i < |f.capability| && f.capability[i] != 0
  }

  ghost predicate ValidFrame(f: Frame) {
    && ValidHeader(f)
    && |f.before| <= MAX_BEFORE_UNITS && |f.after| <= MAX_AFTER_UNITS && ValidUtf16(f.before) && ValidUtf16(f.after)
    && (f.kind == KIND_CLEAR ==> f.before == [] && f.after == [])
    && (f.kind == KIND_CONTEXT ==> f.scope != SCOPE_PASSWORD)
  }

  method ValidateFrame(f: Frame) returns (valid: bool)
    ensures valid <==> ValidFrame(f)
  {
    if !ValidHeader(f) || |f.before| > MAX_BEFORE_UNITS || |f.after| > MAX_AFTER_UNITS { return false; }
    var before := IsValidUtf16(f.before);
    if !before { return false; }
    var after := IsValidUtf16(f.after);
    if !after { return false; }
    if f.kind == KIND_CLEAR && (f.before != [] || f.after != []) { return false; }
    valid := !(f.kind == KIND_CONTEXT && f.scope == SCOPE_PASSWORD);
  }

  function Header(f: Frame): (r: seq<U8>)
    requires |f.capability| == CAPABILITY_BYTES
    ensures |r| == HEADER_BYTES
  {
    Bytes(MAGIC, 4) + Bytes(VERSION, 2) + [f.kind, f.scope] + Bytes(f.pid, 4) + Bytes(f.revision, 8) + f.capability
    + Bytes(|f.before|, 4) + Bytes(|f.after|, 4)
  }

  function Encoded(f: Frame): (r: seq<U8>)
    requires |f.capability| == CAPABILITY_BYTES
    ensures |r| == HEADER_BYTES + 2 * (|f.before| + |f.after|)
  {
    Header(f) + TextBytes(f.before) + TextBytes(f.after)
  }

  method EncodeContextFrame(f: Frame) returns (r: Option<seq<U8>>)
    requires |f.capability| == CAPABILITY_BYTES
    ensures r == if ValidFrame(f) then Some(Encoded(f)) else None
  {
    hide ValidFrame, Header, Bytes;
    var valid := ValidateFrame(f);
    if !valid { return None; }
    var output := AppendHeader(f);
    output := AppendUtf16(f.before, output);
    output := AppendUtf16(f.after, output);
    r := Some(output);
  }

  method AppendHeader(f: Frame) returns (output: seq<U8>)
    requires |f.capability| == CAPABILITY_BYTES
    ensures output == Header(f)
  {
    hide Bytes, Pow256;
    output := AppendUnsigned(MAGIC, 4, []);
    assert output == Bytes(MAGIC, 4);
    output := AppendUnsigned(VERSION, 2, output);
    output := output + [f.kind];
    output := output + [f.scope];
    assert output == Bytes(MAGIC, 4) + Bytes(VERSION, 2) + [f.kind, f.scope];
    output := AppendUnsigned(f.pid, 4, output);
    output := AppendUnsigned(f.revision, 8, output);
    output := output + f.capability;
    output := AppendUnsigned(|f.before|, 4, output);
    output := AppendUnsigned(|f.after|, 4, output);
  }

  method AppendUtf16(text: seq<U16>, output: seq<U8>) returns (r: seq<U8>)
    ensures r == output + TextBytes(text)
  {
    r := output;
    for index := 0 to |text|
      invariant r == output + TextBytes(text[..index])
    {
      assert text[..index + 1][..index] == text[..index];
      r := AppendUnsigned(text[index], 2, r);
    }
    assert text[..|text|] == text;
  }

  datatype Decoded = Decoded(frame: Frame) | Malformed | Oversized

  /** The frame that bytes of the right size stand for, before validation. */
  function Fields(bytes: seq<U8>): (f: Frame)
    requires |bytes| >= HEADER_BYTES
    requires |bytes| == HEADER_BYTES + 2 * (Value(bytes[36..40]) + Value(bytes[40..44]))
    ensures |f.capability| == CAPABILITY_BYTES
  {
    NumbersFit(bytes);
    var middle := HEADER_BYTES + 2 * Value(bytes[36..40]);
    Frame(bytes[6], bytes[7], Value(bytes[8..12]), Value(bytes[12..20]), bytes[20..36],
          TextOf(bytes[HEADER_BYTES..middle]), TextOf(bytes[middle..]))
  }

  lemma NumbersFit(bytes: seq<U8>)
    requires |bytes| >= HEADER_BYTES
    ensures Value(bytes[8..12]) < 0x1_0000_0000 && Value(bytes[12..20]) < 0x1_0000_0000_0000_0000
  {
    Widths();
    BytesOfValue(bytes[8..12]);
    BytesOfValue(bytes[12..20]);
  }

  /** What decoding does, branch by branch. */
  ghost function Decode(bytes: seq<U8>): Decoded {
    if |bytes| > MAX_FRAME_BYTES then Oversized
    else if |bytes| < HEADER_BYTES then Malformed
    else if Value(bytes[0..4]) != MAGIC || Value(bytes[4..6]) != VERSION then Malformed
    else if Value(bytes[36..40]) > MAX_BEFORE_UNITS || Value(bytes[40..44]) > MAX_AFTER_UNITS then Oversized
    else if |bytes| != HEADER_BYTES + 2 * (Value(bytes[36..40]) + Value(bytes[40..44])) then Malformed
    else if ValidFrame(Fields(bytes)) then Decoded(Fields(bytes)) else Malformed
  }

  method DecodeContextFrame(bytes: seq<U8>) returns (r: Decoded)
    ensures r == Decode(bytes)
  {
    hide ValidFrame, Value, Bytes, Pow256, TextOf;
    if |bytes| > MAX_FRAME_BYTES { return Oversized; }
    if |bytes| < HEADER_BYTES { return Malformed; }
    var magic := ReadUnsigned(bytes, 0, 4);
    var version := ReadUnsigned(bytes, 4, 2);
    if magic != MAGIC || version != VERSION { return Malformed; }
    var beforeUnits := ReadUnsigned(bytes, 36, 4);
    var afterUnits := ReadUnsigned(bytes, 40, 4);
    if beforeUnits > MAX_BEFORE_UNITS || afterUnits > MAX_AFTER_UNITS { return Oversized; }
    if |bytes| != HEADER_BYTES + 2 * (beforeUnits + afterUnits) { return Malformed; }
    var f := ReadFrame(bytes, beforeUnits, afterUnits);
    var valid := ValidateFrame(f);
    r := if valid then Decoded(f) else Malformed;
  }

  method ReadFrame(bytes: seq<U8>, beforeUnits: nat, afterUnits: nat) returns (f: Frame)
    requires |bytes| == HEADER_BYTES + 2 * (beforeUnits + afterUnits)
    requires beforeUnits == Value(bytes[36..40]) && afterUnits == Value(bytes[40..44])
    ensures f == Fields(bytes)
  {
    hide Value, Bytes, Pow256, TextOf;
    NumbersFit(bytes);
    var pid := ReadUnsigned(bytes, 8, 4);
    var revision := ReadUnsigned(bytes, 12, 8);
    var before := ReadUtf16(bytes, HEADER_BYTES, beforeUnits);
    var after := ReadUtf16(bytes, HEADER_BYTES + 2 * beforeUnits, afterUnits);
    assert bytes[HEADER_BYTES + 2 * beforeUnits..HEADER_BYTES + 2 * beforeUnits + 2 * afterUnits] == bytes[HEADER_BYTES + 2 * beforeUnits..];
    f := Frame(bytes[6], bytes[7], pid, revision, bytes[20..36], before, after);
  }

  method ReadUtf16(bytes: seq<U8>, offset: nat, units: nat) returns (text: seq<U16>)
    requires offset + 2 * units <= |bytes|
    ensures text == TextOf(bytes[offset..offset + 2 * units])
  {
    text := [];
    for index := 0 to units
      invariant text == TextOf(bytes[offset..offset + 2 * index])
    {
      hide TextOf, Value;
      TextOfNext(bytes, offset, index);
      var unit := ReadUnsigned(bytes, offset + 2 * index, 2);
      text := text + [unit];
    }
  }

  lemma TextOfNext(bytes: seq<U8>, offset: nat, index: nat)
    requires offset + 2 * index + 2 <= |bytes|
    ensures var at := offset + 2 * index;
            && Value(bytes[at..at + 2]) < 0x1_0000
            && TextOf(bytes[offset..at + 2]) == TextOf(bytes[offset..at]) + [Value(bytes[at..at + 2])]
  {
    hide Value;
    var at := offset + 2 * index;
    var next := bytes[offset..at + 2];
    assert next[..|next| - 2] == bytes[offset..at];
    assert next[|next| - 2..] == bytes[at..at + 2];
    Unit(bytes[at..at + 2]);
  }

  lemma HeaderFields(f: Frame, h: seq<U8>)
    requires |f.capability| == CAPABILITY_BYTES && h == Header(f)
    ensures h[0..4] == Bytes(MAGIC, 4) && h[4..6] == Bytes(VERSION, 2) && h[6] == f.kind && h[7] == f.scope
    ensures h[8..12] == Bytes(f.pid, 4) && h[12..20] == Bytes(f.revision, 8) && h[20..36] == f.capability
    ensures h[36..40] == Bytes(|f.before|, 4) && h[40..44] == Bytes(|f.after|, 4)
  {}

  lemma HeaderSlices(f: Frame, bytes: seq<U8>, i: nat, j: nat)
    requires |f.capability| == CAPABILITY_BYTES && bytes == Encoded(f) && i <= j <= HEADER_BYTES
    ensures bytes[i..j] == Header(f)[i..j]
  {}

  /** Decoding an encoded valid frame gives the frame back. */
  lemma DecodeEncoded(f: Frame)
    requires ValidFrame(f) && |f.capability| == CAPABILITY_BYTES
    ensures Decode(Encoded(f)) == Decoded(f)
  {
    hide ValidFrame, ValidUtf16, Bytes, Value, Header, Pow256;
    var bytes, h := Encoded(f), Header(f);
    EncodedNumbers(f, bytes);
    HeaderSlices(f, bytes, 20, 36);
    HeaderFields(f, h);
    var middle := HEADER_BYTES + 2 * |f.before|;
    assert bytes[HEADER_BYTES..middle] == TextBytes(f.before) && bytes[middle..] == TextBytes(f.after);
    TextRoundTrip(f.before);
    TextRoundTrip(f.after);
    assert Fields(bytes) == f;
    ValidSizes(f);
  }

  lemma ValidSizes(f: Frame)
    requires ValidFrame(f)
    ensures |f.before| <= MAX_BEFORE_UNITS && |f.after| <= MAX_AFTER_UNITS
  {}

  lemma EncodedNumbers(f: Frame, bytes: seq<U8>)
    requires ValidFrame(f) && |f.capability| == CAPABILITY_BYTES && bytes == Encoded(f)
    ensures Value(bytes[0..4]) == MAGIC && Value(bytes[4..6]) == VERSION && bytes[6] == f.kind && bytes[7] == f.scope
    ensures Value(bytes[8..12]) == f.pid && Value(bytes[12..20]) == f.revision
    ensures Value(bytes[36..40]) == |f.before| && Value(bytes[40..44]) == |f.after|
  {
    hide ValidUtf16, Bytes, Value, Pow256;
    var h := Header(f);
    HeaderFields(f, h);
    HeaderSlices(f, bytes, 0, 4);
    HeaderSlices(f, bytes, 4, 6);
    HeaderSlices(f, bytes, 8, 12);
    HeaderSlices(f, bytes, 12, 20);
    HeaderSlices(f, bytes, 36, 40);
    HeaderSlices(f, bytes, 40, 44);
    assert bytes[6] == h[6] && bytes[7] == h[7];
    Widths();
    ValueOfBytes(MAGIC, 4);
    ValueOfBytes(VERSION, 2);
    ValueOfBytes(f.pid, 4);
    ValueOfBytes(f.revision, 8);
    ValueOfBytes(|f.before|, 4);
    ValueOfBytes(|f.after|, 4);
  }

  /** Accepted bytes are exactly the encoding of the frame they stand for. */
  lemma EncodeDecoded(bytes: seq<U8>)
    requires Decode(bytes).Decoded?
    ensures ValidFrame(Decode(bytes).frame) && Encoded(Decode(bytes).frame) == bytes
  {
    hide ValidFrame, Bytes, Value, Pow256, Header, TextOf, TextBytes;
    var f := Decode(bytes).frame;
    var middle := HEADER_BYTES + 2 * Value(bytes[36..40]);
    BytesRoundTrip(bytes[HEADER_BYTES..middle]);
    BytesRoundTrip(bytes[middle..]);
    HeaderOf(bytes, f);
    assert bytes == bytes[..HEADER_BYTES] + bytes[HEADER_BYTES..middle] + bytes[middle..];
  }

  lemma HeaderOf(bytes: seq<U8>, f: Frame)
    requires Decode(bytes) == Decoded(f)
    ensures Header(f) == bytes[..HEADER_BYTES]
  {
    hide ValidFrame, ValidUtf16, Pow256, Bytes, Value, TextOf;
    BytesOfValue(bytes[0..4]);
    BytesOfValue(bytes[4..6]);
    BytesOfValue(bytes[8..12]);
    BytesOfValue(bytes[12..20]);
    BytesOfValue(bytes[36..40]);
    BytesOfValue(bytes[40..44]);
    HeaderParts(bytes);
  }

  lemma HeaderParts(bytes: seq<U8>)
    requires |bytes| >= HEADER_BYTES
    ensures bytes[..HEADER_BYTES] == bytes[0..4] + bytes[4..6] + [bytes[6], bytes[7]] + bytes[8..12] + bytes[12..20] + bytes[20..36]
                                     + bytes[36..40] + bytes[40..44]
  {
    assert bytes[..12] == bytes[0..4] + bytes[4..6] + [bytes[6], bytes[7]] + bytes[8..12];
    assert bytes[..36] == bytes[..12] + bytes[12..20] + bytes[20..36];
    assert bytes[..44] == bytes[..36] + bytes[36..40] + bytes[40..44];
  }

  /** The number of two bytes, low byte first. */
  function Two(bytes: seq<U8>, at: nat): nat
    requires at + 2 <= |bytes|
  {
    var low: nat, high: nat := bytes[at], bytes[at + 1];
    low + 0x100 * high
  }

  function Four(bytes: seq<U8>, at: nat): nat
    requires at + 4 <= |bytes|
  {
    Two(bytes, at) + 0x1_0000 * Two(bytes, at + 2)
  }

  lemma TwoBytes(bytes: seq<U8>, at: nat)
    requires at + 2 <= |bytes|
    ensures Value(bytes[at..at + 2]) == Two(bytes, at)
  {
    var part := bytes[at..at + 2];
    assert part[1..] == [bytes[at + 1]];
    assert Value(part[1..]) == bytes[at + 1] + 256 * Value([]);
  }

  lemma {:induction false} ValueSplits(a: seq<U8>, b: seq<U8>)
    ensures Value(a + b) == Value(a) + Pow256(|a|) * Value(b)
  {
    if a == [] {
      assert a + b == b;
    } else {
      ValueSplits(a[1..], b);
      assert (a + b)[1..] == a[1..] + b;
      Distributes(Pow256(|a| - 1), Value(b));
    }
  }

  lemma Distributes(weight: nat, value: nat)
    ensures 256 * (weight * value) == 256 * weight * value
  {}

  lemma FourBytes(bytes: seq<U8>, at: nat)
    requires at + 4 <= |bytes|
    ensures Value(bytes[at..at + 4]) == Four(bytes, at)
  {
    hide Value, Two;
    assert bytes[at..at + 4] == bytes[at..at + 2] + bytes[at + 2..at + 4];
    ValueSplits(bytes[at..at + 2], bytes[at + 2..at + 4]);
    TwoBytes(bytes, at);
    TwoBytes(bytes, at + 2);
    Widths();
  }

  lemma EightBytes(bytes: seq<U8>, at: nat)
    requires at + 8 <= |bytes|
    ensures Value(bytes[at..at + 8]) == Four(bytes, at) + 0x1_0000_0000 * Four(bytes, at + 4)
  {
    hide Value, Four;
    assert bytes[at..at + 8] == bytes[at..at + 4] + bytes[at + 4..at + 8];
    ValueSplits(bytes[at..at + 4], bytes[at + 4..at + 8]);
    FourBytes(bytes, at);
    FourBytes(bytes, at + 4);
    Widths();
  }

  lemma {:induction false} UnitsAt(bytes: seq<U8>, k: nat)
    requires |bytes| % 2 == 0 && 2 * k < |bytes|
    ensures TextOf(bytes)[k] == Two(bytes, 2 * k)
  {
    hide Two, Value;
    var front := bytes[..|bytes| - 2];
    TwoBytes(bytes, |bytes| - 2);
    assert bytes[|bytes| - 2..] == bytes[|bytes| - 2..|bytes| - 2 + 2];
    if 2 * k < |front| {
      UnitsAt(front, k);
      SameTwo(front, bytes, 2 * k);
    }
  }

  lemma SameTwo(front: seq<U8>, bytes: seq<U8>, at: nat)
    requires at + 2 <= |front| <= |bytes| && front == bytes[..|front|]
    ensures Two(front, at) == Two(bytes, at)
  {}

  lemma ShiftedTwo(bytes: seq<U8>, from: nat, to: nat, at: nat)
    requires from <= to <= |bytes| && from + at + 2 <= to
    ensures Two(bytes[from..to], at) == Two(bytes, from + at)
  {}

  /** Where each field of accepted bytes stands, byte by byte: every number with its low byte
      first, the text before the caret behind the header and the text after it behind that. */
  lemma AcceptedLayout(bytes: seq<U8>)
    requires Decode(bytes).Decoded?
    ensures var f := Decode(bytes).frame;
            && HEADER_BYTES + 2 * (|f.before| + |f.after|) == |bytes| <= MAX_FRAME_BYTES
            && bytes[0..6] == [0x4e, 0x57, 0x43, 0x54, 1, 0]
            && bytes[6] == f.kind && bytes[7] == f.scope && Four(bytes, 8) == f.pid
            && Four(bytes, 12) + 0x1_0000_0000 * Four(bytes, 16) == f.revision
            && bytes[20..36] == f.capability && Four(bytes, 36) == |f.before| && Four(bytes, 40) == |f.after|
            && (forall k :: 0 <= k < |f.before| ==> Two(bytes, 44 + 2 * k) == f.before[k])
            && forall k :: 0 <= k < |f.after| ==> Two(bytes, 44 + 2 * |f.before| + 2 * k) == f.after[k]
  {
    hide ValidFrame, Value, TextOf, Two, Four, Pow256, Bytes;
    var f := Decode(bytes).frame;
    FourBytes(bytes, 0);
    TwoBytes(bytes, 4);
    FourBytes(bytes, 8);
    EightBytes(bytes, 12);
    FourBytes(bytes, 36);
    FourBytes(bytes, 40);
    MagicBytes(bytes);
    var middle := HEADER_BYTES + 2 * |f.before|;
    forall k | 0 <= k < |f.before| ensures Two(bytes, 44 + 2 * k) == f.before[k] {
      UnitsAt(bytes[HEADER_BYTES..middle], k);
      ShiftedTwo(bytes, HEADER_BYTES, middle, 2 * k);
    }
    forall k | 0 <= k < |f.after| ensures Two(bytes, 44 + 2 * |f.before| + 2 * k) == f.after[k] {
      UnitsAt(bytes[middle..], k);
      ShiftedTwo(bytes, middle, |bytes|, 2 * k);
      assert bytes[middle..|bytes|] == bytes[middle..];
    }
  }

  lemma MagicBytes(bytes: seq<U8>)
    requires |bytes| >= HEADER_BYTES && Four(bytes, 0) == MAGIC && Two(bytes, 4) == VERSION
    ensures bytes[0..6] == [0x4e, 0x57, 0x43, 0x54, 1, 0]
  {
    var a: nat, b: nat, c: nat, d: nat := bytes[0], bytes[1], bytes[2], bytes[3];
    assert a + 0x100 * b + 0x1_0000 * c + 0x100_0000 * d == 0x5443574e;
    assert bytes[0] == 0x4e && bytes[1] == 0x57 && bytes[2] == 0x43 && bytes[3] == 0x54;
    assert bytes[4] == 1 && bytes[5] == 0;
  }

  /** A context frame around any two windows of valid text is valid once both are trimmed, as
      long as they are within the limits. */
  lemma TrimmedFrameIsValid(f: Frame, text: seq<U16>, a: nat, b: nat, c: nat, d: nat)
    requires ValidUtf16(text) && a <= b <= |text| && c <= d <= |text|
    requires ValidHeader(f) && f.kind == KIND_CONTEXT && f.scope != SCOPE_PASSWORD
    requires b - a <= MAX_BEFORE_UNITS && d - c <= MAX_AFTER_UNITS
    ensures ValidFrame(f.(before := Trimmed(text[a..b]), after := Trimmed(text[c..d])))
  {
    TrimmedWindowIsValid(text, a, b);
    TrimmedWindowIsValid(text, c, d);
  }

  // ---------------------------------------------------------------------------------
  // The receiver.

  datatype Receiver = Receiver(capability: seq<U8>, pid: U32, revision: U64, hasSource: bool, retired: set<seq<U8>>)

  datatype Acceptance = Accepted(frame: Frame) | Rejected | TooLarge | Stale

  function NewReceiver(): Receiver {
    Receiver([], 0, 0, false, {})
  }

  /** What one frame does: nothing, or it becomes the latest, retiring whom it displaces. */
  function Receive(r: Receiver, f: Frame): (Receiver, Acceptance) {
    if f.capability in r.retired then (r, Stale)
    else if r.hasSource && f.capability == r.capability && f.pid != r.pid then (r, Rejected)
    else if r.hasSource && f.capability == r.capability && f.revision <= r.revision then (r, Stale)
    else
      var displaced := if r.hasSource && f.capability != r.capability then {r.capability} else {};
      var cleared := if f.kind == KIND_CLEAR then {f.capability} else {};
      (Receiver(f.capability, f.pid, f.revision, f.kind != KIND_CLEAR, r.retired + displaced + cleared), Accepted(f))
  }

  ghost function AcceptBytes(r: Receiver, bytes: seq<U8>): (Receiver, Acceptance) {
    match Decode(bytes)
    case Oversized => (r, TooLarge)
    case Malformed => (r, Rejected)
    case Decoded(f) => Receive(r, f)
  }

  class ContextFrameReceiver {
    var latestCapability: seq<U8>
    var latestSourcePid: U32
    var latestRevision: U64
    var hasSource: bool
    var retiredCapabilities: set<seq<U8>>

    constructor ()
      ensures State() == NewReceiver()
    {
      latestCapability, latestSourcePid, latestRevision, hasSource, retiredCapabilities := [], 0, 0, false, {};
    }

    function State(): Receiver
      reads this
    {
      Receiver(latestCapability, latestSourcePid, latestRevision, hasSource, retiredCapabilities)
    }

    method Accept(bytes: seq<U8>) returns (r: Acceptance)
      modifies this
      ensures (State(), r) == AcceptBytes(old(State()), bytes)
    {
      var decoded := DecodeContextFrame(bytes);
      if decoded.Oversized? { return TooLarge; }
      if !decoded.Decoded? { return Rejected; }
      var f := decoded.frame;
      if f.capability in retiredCapabilities { return Stale; }
      if hasSource && f.capability == latestCapability {
        if f.pid != latestSourcePid { return Rejected; }
        if f.revision <= latestRevision { return Stale; }
      } else if hasSource {
        retiredCapabilities := retiredCapabilities + {latestCapability};
      }
      latestCapability, latestSourcePid, latestRevision := f.capability, f.pid, f.revision;
      ghost var displaced := if old(hasSource) && f.capability != old(latestCapability) then {old(latestCapability)} else {};
      assert retiredCapabilities == old(retiredCapabilities) + displaced;
      if f.kind == KIND_CLEAR {
        retiredCapabilities := retiredCapabilities + {f.capability};
        hasSource := false;
      } else {
        hasSource := true;
        assert retiredCapabilities == old(retiredCapabilities) + displaced + {};
      }
      r := Accepted(f);
    }
  }

  // Runs over any deliveries.

  /** The receiver after some deliveries, and the frames it accepted, in order. */
  ghost function Deliver(deliveries: seq<seq<U8>>): (Receiver, seq<Frame>) {
    if deliveries == [] then (NewReceiver(), [])
    else
      var (r, log) := Deliver(deliveries[..|deliveries| - 1]);
      var (next, answer) := AcceptBytes(r, deliveries[|deliveries| - 1]);
      (next, if answer.Accepted? then log + [answer.frame] else log)
  }

  /** Two accepted frames of one capability, and everything accepted between them, form one run. */
  ghost predicate OneRun(log: seq<Frame>, i: nat, j: nat)
    requires i < j < |log|
  {
    log[i].capability == log[j].capability ==>
      && log[i].pid == log[j].pid && log[i].revision < log[j].revision && log[i].kind != KIND_CLEAR
      && forall k :: i < k < j ==> log[k].capability == log[i].capability
  }

  ghost predicate ReceiverOk(r: Receiver, log: seq<Frame>) {
    && (forall i, j :: 0 <= i < j < |log| ==> OneRun(log, i, j))
    && (forall i :: 0 <= i < |log| ==> log[i].capability in r.retired || (r.hasSource && log[i].capability == r.capability))
    && (r.hasSource ==> log != [] && r.capability !in r.retired
                        && (var f := log[|log| - 1];
                            f.capability == r.capability && f.pid == r.pid && f.revision == r.revision && f.kind != KIND_CLEAR))
  }

  lemma ReceiveKeeps(r: Receiver, log: seq<Frame>, f: Frame)
    requires ReceiverOk(r, log)
    ensures var (next, answer) := Receive(r, f); ReceiverOk(next, if answer.Accepted? then log + [f] else log)
  {
    var (next, answer) := Receive(r, f);
    if answer.Accepted? {
      var more, last := log + [f], |log| - 1;
      forall i, j | 0 <= i < j < |more| ensures OneRun(more, i, j) {
        if j < |log| {
          assert OneRun(log, i, j);
        } else if log[i].capability == f.capability && i < last {
          assert OneRun(log, i, last);
        }
      }
    }
  }

  /** The receiver knows the accepted frames: its source is the one of the last frame unless that
      cleared it, and it has retired every other one. */
  ghost predicate KnowsLog(r: Receiver, log: seq<Frame>) {
    && (r.hasSource <==> log != [] && log[|log| - 1].kind != KIND_CLEAR)
    && (r.hasSource ==> r.capability == log[|log| - 1].capability && r.pid == log[|log| - 1].pid && r.revision == log[|log| - 1].revision)
    && forall c :: c in r.retired <==> Sent(log, c) && !(r.hasSource && c == r.capability)
  }

  /** Some accepted frame came from this source. */
  ghost predicate Sent(log: seq<Frame>, c: seq<U8>) {
    exists i :: 0 <= i < |log| && log[i].capability == c
  }

  /** The next frame of the live source: its process, a later revision, and not cleared. */
  predicate Continues(log: seq<Frame>, f: Frame) {
    && log != [] && log[|log| - 1].capability == f.capability && log[|log| - 1].kind != KIND_CLEAR
    && log[|log| - 1].pid == f.pid && log[|log| - 1].revision < f.revision
  }

  lemma SentMore(log: seq<Frame>, f: Frame, c: seq<U8>)
    ensures Sent(log + [f], c) <==> Sent(log, c) || c == f.capability
  {
    var more := log + [f];
    assert more[|log|] == f;
    if Sent(log, c) {
      var i :| 0 <= i < |log| && log[i].capability == c;
      assert more[i] == log[i];
    }
  }

  lemma ReceiveKnows(r: Receiver, log: seq<Frame>, f: Frame)
    requires ReceiverOk(r, log) && KnowsLog(r, log)
    ensures var (next, answer) := Receive(r, f);
            && KnowsLog(next, if answer.Accepted? then log + [f] else log)
            && (answer.Accepted? <==> !Sent(log, f.capability) || Continues(log, f))
            && (answer == Rejected <==> log != [] && log[|log| - 1].capability == f.capability && log[|log| - 1].kind != KIND_CLEAR
                                        && log[|log| - 1].pid != f.pid)
            && answer != TooLarge && (answer.Accepted? ==> answer.frame == f)
  {
    hide OneRun;
    forall c ensures Sent(log + [f], c) <==> Sent(log, c) || c == f.capability { SentMore(log, f, c); }
    if log != [] {
      var last := log[|log| - 1];
      assert Sent(log, last.capability);
    }
  }

  lemma {:induction false} DeliveriesKnown(deliveries: seq<seq<U8>>)
    ensures KnowsLog(Deliver(deliveries).0, Deliver(deliveries).1)
  {
    hide KnowsLog, ReceiverOk, Decode, Receive;
    if deliveries == [] {
      NothingKnown();
    } else {
      var front, bytes := deliveries[..|deliveries| - 1], deliveries[|deliveries| - 1];
      DeliveriesKnown(front);
      DeliveriesOk(front);
      if Decode(bytes).Decoded? {
        ReceiveKnows(Deliver(front).0, Deliver(front).1, Decode(bytes).frame);
      }
    }
  }

  lemma NothingKnown()
    ensures KnowsLog(NewReceiver(), [])
  {}

  /** Exactly which frames are accepted, after any deliveries: those of a source that nothing was
      accepted from before, and those that continue the live one. Of the others a frame of the live
      source from another process is rejected, and the rest are stale. */
  lemma AcceptedExactly(deliveries: seq<seq<U8>>, bytes: seq<U8>)
    ensures var (r, log) := Deliver(deliveries);
            var answer := AcceptBytes(r, bytes).1;
            match Decode(bytes)
            case Oversized => answer == TooLarge
            case Malformed => answer == Rejected
            case Decoded(f) =>
              if !Sent(log, f.capability) || Continues(log, f) then answer == Accepted(f)
              else if log[|log| - 1].capability == f.capability && log[|log| - 1].kind != KIND_CLEAR && log[|log| - 1].pid != f.pid then answer == Rejected
              else answer == Stale
  {
    hide KnowsLog, ReceiverOk, Decode, Receive;
    var (r, log) := Deliver(deliveries);
    DeliveriesOk(deliveries);
    DeliveriesKnown(deliveries);
    if Decode(bytes).Decoded? { ReceiveKnows(r, log, Decode(bytes).frame); }
  }

  lemma {:induction false} DeliveriesOk(deliveries: seq<seq<U8>>)
    ensures ReceiverOk(Deliver(deliveries).0, Deliver(deliveries).1)
  {
    hide ReceiverOk, Decode;
    if deliveries == [] {
      NothingReceived();
    } else {
      var front, bytes := deliveries[..|deliveries| - 1], deliveries[|deliveries| - 1];
      DeliveriesOk(front);
      if Decode(bytes).Decoded? {
        ReceiveKeeps(Deliver(front).0, Deliver(front).1, Decode(bytes).frame);
      }
    }
  }

  lemma NothingReceived()
    ensures ReceiverOk(NewReceiver(), [])
  {}

  /** For every order of deliveries, repeated, reordered or interleaved: the accepted frames of
      one capability form one contiguous run with one pid and strictly increasing revisions,
      and nothing of it is accepted after another source took over or after its clear. */
  lemma AcceptedFramesFormRuns(deliveries: seq<seq<U8>>, i: nat, j: nat)
    requires i < j < |Deliver(deliveries).1| && Deliver(deliveries).1[i].capability == Deliver(deliveries).1[j].capability
    ensures var log := Deliver(deliveries).1;
            && log[i].pid == log[j].pid && log[i].revision < log[j].revision && log[i].kind != KIND_CLEAR
            && forall k :: i < k < j ==> log[k].capability == log[i].capability
  {
    DeliveriesOk(deliveries);
    assert OneRun(Deliver(deliveries).1, i, j);
  }
}
