/** Makes untrusted text safe to print in a terminal. */
module Sanitize {
  import opened Options
  import opened Numbers
  import opened Utf8
  import opened Wire

  const ST: Byte := 0x9C
  const REPLACEMENT: Scalar := 0xFFFD
  const MAX_ESCAPE_SCAN := 4096

  // The byte that follows ESC to introduce each kind of sequence.
  const CSI: Byte := 0x5B
  const OSC: Byte := 0x5D
  const DCS: Byte := 0x50
  const APC: Byte := 0x5F
  const PM: Byte := 0x5E
  const SOS: Byte := 0x58

  predicate IsBidiOverride(r: Scalar) {
    0x202A <= r <= 0x202E || 0x2066 <= r <= 0x2069
  }

  /** Text that may be printed as it is. */
  predicate Permitted(r: Scalar, allowNewline: bool) {
    (r >= 0x20 || (r == 0x0A && allowNewline)) && r != 0x7F && !IsBidiOverride(r)
  }

  // ------------------------------------------------------- escape sequences

  /** The length of a terminator at `j` of a sequence that is searched up to `limit`, or 0. */
  function Terminator(s: Bytes, j: nat, limit: nat, introducer: Byte): nat
    requires j < limit <= |s|
  {
    if introducer == CSI then if 0x40 <= s[j] <= 0x7E then 1 else 0
    else if s[j] == BEL && introducer == OSC then 1
    else if s[j] == ESC && j + 1 < limit && s[j + 1] == BACKSLASH then 2
    else if s[j] == ST then 1
    else 0
  }

  function Limit(s: Bytes, i: nat): nat {
    if |s| > i + MAX_ESCAPE_SCAN then i + MAX_ESCAPE_SCAN else |s|
  }

  function SequenceEnd(s: Bytes, i: nat, limit: nat, introducer: Byte): (end: nat)
    requires i <= limit <= |s|
    ensures i <= end <= limit
    decreases limit - i
  {
    if i == limit then limit
    else if Terminator(s, i, limit, introducer) > 0 then i + Terminator(s, i, limit, introducer)
    else SequenceEnd(s, i + 1, limit, introducer)
  }

  predicate Unterminated(s: Bytes, i: nat, to: nat, limit: nat, introducer: Byte)
    requires i <= to <= limit <= |s|
  {
    forall j :: i <= j < to ==> Terminator(s, j, limit, introducer) == 0
  }

  /** The first terminator from `i` on stands at `j`. */
  predicate FirstAt(s: Bytes, i: nat, j: nat, limit: nat, introducer: Byte)
    requires i <= j < limit <= |s|
  {
    Unterminated(s, i, j, limit, introducer) && Terminator(s, j, limit, introducer) > 0
  }

  /** A sequence ends behind its first terminator, or where the search is cut off if there is none. */
  lemma {:induction false} SequenceEndsFirst(s: Bytes, i: nat, limit: nat, introducer: Byte)
    requires i <= limit <= |s|
    ensures var end := SequenceEnd(s, i, limit, introducer);
      || (end == limit && Unterminated(s, i, limit, limit, introducer))
      || exists j :: i <= j < limit && FirstAt(s, i, j, limit, introducer) && end == j + Terminator(s, j, limit, introducer)
    decreases limit - i
  {
    if i < limit && Terminator(s, i, limit, introducer) == 0 {
      SequenceEndsFirst(s, i + 1, limit, introducer);
      var end := SequenceEnd(s, i, limit, introducer);
      if !(end == limit && Unterminated(s, i + 1, limit, limit, introducer)) {
        var j :| i + 1 <= j < limit && FirstAt(s, i + 1, j, limit, introducer) && end == j + Terminator(s, j, limit, introducer);
        assert FirstAt(s, i, j, limit, introducer);
      }
    } else if i < limit {
      assert FirstAt(s, i, i, limit, introducer);
    }
  }

  method EscapeSeqEnd(s: Bytes, i: nat, introducer: Byte) returns (end: nat)
    requires i <= |s|
    ensures end == SequenceEnd(s, i, Limit(s, i), introducer)
  {
    var limit := |s|;
    if limit > i + MAX_ESCAPE_SCAN {
      limit := i + MAX_ESCAPE_SCAN;
    }
    var j := i;
    if introducer == CSI {
      while j < limit
        invariant i <= j <= limit
        invariant SequenceEnd(s, i, limit, introducer) == SequenceEnd(s, j, limit, introducer)
      {
        if 0x40 <= s[j] <= 0x7E {
          return j + 1;
        }
        j := j + 1;
      }
      return limit;
    }
    while j < limit
      invariant i <= j <= limit
      invariant SequenceEnd(s, i, limit, introducer) == SequenceEnd(s, j, limit, introducer)
    {
      if s[j] == BEL && introducer == OSC {
        return j + 1;
      }
      if s[j] == ESC && j + 1 < limit && s[j + 1] == BACKSLASH {
        return j + 2;
      }
      if s[j] == ST {
        return j + 1;
      }
      j := j + 1;
    }
    return limit;
  }

  /** How many bytes of `s` from an ESC at `i` are taken with it. */
  function EscapeWidth(s: Bytes, i: nat): (width: nat)
    requires i < |s|
    ensures 1 <= width <= |s| - i && width <= 2 + MAX_ESCAPE_SCAN
  {
    if i + 1 >= |s| then 1
    else if s[i + 1] in {CSI, OSC, DCS, APC, PM, SOS} then SequenceEnd(s, i + 2, Limit(s, i + 2), s[i + 1]) - i
    else 2
  }

  /** The introducer that a raw C1 byte stands for. */
  function C1Introducer(c: Byte): Option<Byte> {
    if c == 0x9B then Some(CSI)
    else if c == 0x9D then Some(OSC)
    else if c == 0x90 then Some(DCS)
    else if c == 0x9F then Some(APC)
    else if c == 0x9E then Some(PM)
    else if c == 0x98 then Some(SOS)
    else None
  }

  function C1Width(s: Bytes, i: nat): (width: nat)
    requires i < |s|
    ensures 1 <= width <= |s| - i && width <= 1 + MAX_ESCAPE_SCAN
  {
    if C1Introducer(s[i]).None? then 1 else SequenceEnd(s, i + 1, Limit(s, i + 1), C1Introducer(s[i]).value) - i
  }

  // ------------------------------------------------------------------ sanitize

  /** One step of the scan: the character printed for what stands at `i`, and how many bytes it takes. */
  function Next(s: Bytes, i: nat, allowNewline: bool): (step: Rune)
    requires i < |s|
    ensures 1 <= step.size <= |s| - i
  {
    var c := s[i];
    if c == ESC then Rune(REPLACEMENT, EscapeWidth(s, i))
    else if c == 0x09 then Rune(0x20, 1)
    else if c == 0x0A && allowNewline then Rune(0x0A, 1)
    else if c < 0x20 || c == 0x7F then Rune(REPLACEMENT, 1)
    else if 0x80 <= c <= 0x9F then Rune(REPLACEMENT, C1Width(s, i))
    else if c < 0x80 then Rune(c, 1)
    else
      var d := Decode(s[i..]);
      if d.None? then Rune(REPLACEMENT, 1)
      else DecodedStep(s, i, d.value)
  }

  function DecodedStep(s: Bytes, i: nat, d: Rune): (step: Rune)
    requires i < |s| && Decode(s[i..]) == Some(d)
    ensures 1 <= step.size <= |s| - i
  {
    DecodeFindsEncodings(s[i..], d.value, d.size);
    Rune(if IsBidiOverride(d.value) then REPLACEMENT else d.value, d.size)
  }

  /** The characters printed for `s` from `i` on. */
  function Scan(s: Bytes, i: nat, allowNewline: bool): seq<Scalar>
    requires i <= |s|
    decreases |s| - i
  {
    if i == |s| then []
    else
      var step := Next(s, i, allowNewline);
      [step.value] + Scan(s, i + step.size, allowNewline)
  }

  function Sanitized(s: Bytes, allowNewline: bool): Bytes {
    EncodeAll(Scan(s, 0, allowNewline))
  }

  method SkipEscape(s: Bytes, i: nat) returns (width: nat)
    requires i < |s| && s[i] == ESC
    ensures width == EscapeWidth(s, i)
  {
    if i + 1 >= |s| {
      return 1;
    }
    if s[i + 1] in {CSI, OSC, DCS, APC, PM, SOS} {
      var end := EscapeSeqEnd(s, i + 2, s[i + 1]);
      return end - i;
    }
    return 2;
  }

  method SkipC1(s: Bytes, i: nat) returns (width: nat)
    requires i < |s| && 0x80 <= s[i] <= 0x9F
    ensures width == C1Width(s, i)
  {
    var introducer := C1Introducer(s[i]);
    if introducer.None? {
      return 1;
    }
    var end := EscapeSeqEnd(s, i + 1, introducer.value);
    return end - i;
  }

  method Clean(s: Bytes, allowNewline: bool) returns (b: Bytes)
    ensures b == Sanitized(s, allowNewline)
  {
    hide Decode, Encode, EncodeAll, Scan, EscapeWidth, C1Width, SequenceEnd, Terminator, Permitted;
    b := [];
    var i := 0;
    ScanEnds(s, allowNewline);
    while i < |s|
      invariant 0 <= i <= |s|
      invariant b + EncodeAll(Scan(s, i, allowNewline)) == Sanitized(s, allowNewline)
      decreases |s| - i
    {
      ghost var before, at := b, i;
      var c := s[i];
      if c == ESC {
        b := b + Encode(REPLACEMENT);
        var width := SkipEscape(s, i);
        i := i + width;
      } else if c == 0x09 {
        b := b + [0x20];
        AsciiIsItself(0x20);
        i := i + 1;
      } else if c == 0x0A && allowNewline {
        b := b + [0x0A];
        AsciiIsItself(0x0A);
        i := i + 1;
      } else if c < 0x20 || c == 0x7F {
        b := b + Encode(REPLACEMENT);
        i := i + 1;
      } else if 0x80 <= c <= 0x9F {
        b := b + Encode(REPLACEMENT);
        var width := SkipC1(s, i);
        i := i + width;
      } else if c < 0x80 {
        b := b + [c];
        AsciiIsItself(c);
        i := i + 1;
      } else {
        var d := Decode(s[i..]);
        if d.None? {
          b := b + Encode(REPLACEMENT);
          i := i + 1;
        } else {
          DecodeFindsEncodings(s[i..], d.value.value, d.value.size);
          b := b + Encode(if IsBidiOverride(d.value.value) then REPLACEMENT else d.value.value);
          i := i + d.value.size;
        }
      }
      assert b == before + Encode(Next(s, at, allowNewline).value) && i == at + Next(s, at, allowNewline).size;
      hide Next;
      Printed(s, at, allowNewline);
    }
  }

  lemma AsciiIsItself(c: Byte)
    requires c < 0x80
    ensures Encode(c) == [c]
  {
  }

  lemma ScanEnds(s: Bytes, allowNewline: bool)
    ensures EncodeAll(Scan(s, |s|, allowNewline)) == []
  {
  }

  lemma Printed(s: Bytes, i: nat, allowNewline: bool)
    requires i < |s|
    ensures EncodeAll(Scan(s, i, allowNewline)) ==
      Encode(Next(s, i, allowNewline).value) + EncodeAll(Scan(s, i + Next(s, i, allowNewline).size, allowNewline))
  {
    var step := Next(s, i, allowNewline);
    assert Scan(s, i, allowNewline)[1..] == Scan(s, i + step.size, allowNewline);
  }

  // ----------------------------------------------------------- safe output

  predicate AllPermitted(text: seq<Scalar>, allowNewline: bool) {
    forall k :: 0 <= k < |text| ==> Permitted(text[k], allowNewline)
  }

  /** Valid UTF-8 with nothing in it that may not be printed. */
  ghost predicate IsClean(s: Bytes, allowNewline: bool) {
    exists text :: s == EncodeAll(text) && AllPermitted(text, allowNewline)
  }

  lemma LongEncoding(r: Scalar)
    ensures |Encode(r)| > 1 <==> r >= 0x80
    ensures forall k :: 0 <= k < |Encode(r)| ==> (Encode(r)[k] == r < 0x80 && |Encode(r)| == 1) || (r >= 0x80 && Encode(r)[k] >= 0x80)
    ensures !(0x80 <= Encode(r)[0] <= 0x9F)
  {
  }

  lemma NextIsPermitted(s: Bytes, i: nat, allowNewline: bool)
    requires i < |s|
    ensures Permitted(Next(s, i, allowNewline).value, allowNewline)
  {
    if s[i] > 0x9F && Decode(s[i..]).Some? {
      var d := Decode(s[i..]).value;
      DecodeFindsEncodings(s[i..], d.value, d.size);
      LongEncoding(d.value);
      assert Encode(d.value)[0] == s[i];
    }
  }

  lemma {:induction false} ScanIsPermitted(s: Bytes, i: nat, allowNewline: bool)
    requires i <= |s|
    ensures AllPermitted(Scan(s, i, allowNewline), allowNewline) && |Scan(s, i, allowNewline)| <= |s| - i
    decreases |s| - i
  {
    if i < |s| {
      NextIsPermitted(s, i, allowNewline);
      hide Next, Permitted;
      ScanIsPermitted(s, i + Next(s, i, allowNewline).size, allowNewline);
    }
  }

  /** Whatever the input, the output is clean: for every byte read at most one character is printed. */
  lemma OutputIsClean(s: Bytes, allowNewline: bool)
    ensures IsClean(Sanitized(s, allowNewline), allowNewline)
    ensures exists text :: Sanitized(s, allowNewline) == EncodeAll(text) && AllPermitted(text, allowNewline) && |text| <= |s|
  {
    ScanIsPermitted(s, 0, allowNewline);
  }

  /** No byte of clean text is a control byte a terminal acts on, but for a line break that was asked for. */
  lemma {:induction false} CleanBytes(text: seq<Scalar>, allowNewline: bool, k: nat)
    requires AllPermitted(text, allowNewline) && k < |EncodeAll(text)|
    ensures EncodeAll(text)[k] >= 0x20 || (allowNewline && EncodeAll(text)[k] == 0x0A)
    ensures EncodeAll(text)[k] != 0x7F && EncodeAll(text)[k] != ESC
    decreases |text|
  {
    LongEncoding(text[0]);
    assert Permitted(text[0], allowNewline);
    var head := Encode(text[0]);
    hide Encode;
    if k < |head| {
      assert EncodeAll(text)[k] == head[k];
    } else {
      assert AllPermitted(text[1..], allowNewline);
      CleanBytes(text[1..], allowNewline, k - |head|);
      assert EncodeAll(text)[k] == EncodeAll(text[1..])[k - |head|];
    }
  }

  lemma OutputBytesAreInert(s: Bytes, allowNewline: bool, k: nat)
    requires k < |Sanitized(s, allowNewline)|
    ensures var c := Sanitized(s, allowNewline)[k];
      (c >= 0x20 || (allowNewline && c == 0x0A)) && c != 0x7F && c != ESC
  {
    ScanIsPermitted(s, 0, allowNewline);
    CleanBytes(Scan(s, 0, allowNewline), allowNewline, k);
  }

  // ------------------------------------------------------------ clean input

  lemma NextOnPermitted(s: Bytes, i: nat, r: Scalar, allowNewline: bool)
    requires i < |s| && Encode(r) <= s[i..] && Permitted(r, allowNewline)
    ensures Next(s, i, allowNewline) == Rune(r, |Encode(r)|)
  {
    LongEncoding(r);
    DecodeFindsEncodings(s[i..], r, |Encode(r)|);
    assert s[i] == Encode(r)[0];
    hide Encode, Decode;
  }

  /** Clean text passes through unchanged, whatever follows it. */
  lemma {:induction false} TextPasses(s: Bytes, i: nat, text: seq<Scalar>, allowNewline: bool)
    requires i <= |s| && EncodeAll(text) <= s[i..] && AllPermitted(text, allowNewline)
    ensures Scan(s, i, allowNewline) == text + Scan(s, i + |EncodeAll(text)|, allowNewline)
    decreases |text|
  {
    hide *;
    if text == [] {
      EncodeNothing();
    } else {
      var e, tail := Encode(text[0]), EncodeAll(text[1..]);
      EncodesSome(text[0]);
      EncodeAllSteps(text);
      PrefixSplits(s, i, e, tail);
      PermittedSteps(text, allowNewline);
      NextOnPermitted(s, i, text[0], allowNewline);
      ScanSteps(s, i, text[0], |e|, allowNewline);
      TextPasses(s, i + |e|, text[1..], allowNewline);
      assert text == [text[0]] + text[1..];
    }
  }

  lemma EncodeNothing()
    ensures EncodeAll([]) == []
  {
  }

  lemma EncodeAllSteps(text: seq<Scalar>)
    requires text != []
    ensures EncodeAll(text) == Encode(text[0]) + EncodeAll(text[1..])
  {
  }

  lemma PermittedSteps(text: seq<Scalar>, allowNewline: bool)
    requires text != [] && AllPermitted(text, allowNewline)
    ensures Permitted(text[0], allowNewline) && AllPermitted(text[1..], allowNewline)
  {
  }

  lemma ScanSteps(s: Bytes, i: nat, r: Scalar, n: nat, allowNewline: bool)
    requires i < |s| && Next(s, i, allowNewline) == Rune(r, n)
    ensures i + n <= |s| && Scan(s, i, allowNewline) == [r] + Scan(s, i + n, allowNewline)
  {
  }

  lemma PrefixSplits(s: Bytes, i: nat, e: Bytes, tail: Bytes)
    requires i <= |s| && e + tail <= s[i..]
    ensures e <= s[i..] && i + |e| <= |s| && tail <= s[i + |e|..]
  {
    assert s[i..][|e|..] == s[i + |e|..];
    assert (e + tail)[..|e|] == e && (e + tail)[|e|..] == tail;
    forall k | 0 <= k < |tail|
      ensures s[i + |e|..][k] == tail[k]
    {
      assert s[i..][|e| + k] == (e + tail)[|e| + k];
    }
  }

  lemma EncodesSome(r: Scalar)
    ensures |Encode(r)| > 0
  {
  }

  /** Text is left alone exactly when it is clean. */
  lemma LeftAloneExactly(s: Bytes, allowNewline: bool)
    ensures Sanitized(s, allowNewline) == s <==> IsClean(s, allowNewline)
  {
    OutputIsClean(s, allowNewline);
    hide Next, Scan;
    if IsClean(s, allowNewline) {
      var text :| s == EncodeAll(text) && AllPermitted(text, allowNewline);
      TextIsKept(text, allowNewline);
    }
  }

  lemma TextIsKept(text: seq<Scalar>, allowNewline: bool)
    requires AllPermitted(text, allowNewline)
    ensures Scan(EncodeAll(text), 0, allowNewline) == text
  {
    var s := EncodeAll(text);
    assert s[0..] == s;
    TextPasses(s, 0, text, allowNewline);
    assert Scan(s, |s|, allowNewline) == [];
  }

  lemma Idempotent(s: Bytes, allowNewline: bool)
    ensures Sanitized(Sanitized(s, allowNewline), allowNewline) == Sanitized(s, allowNewline)
  {
    OutputIsClean(s, allowNewline);
    LeftAloneExactly(Sanitized(s, allowNewline), allowNewline);
  }

  // -------------------------------------------------------- escape sequences

  /** The terminators of a sequence: a final byte for CSI, ST for the others, BEL too for OSC. */
  predicate Terminates(term: Bytes, introducer: Byte) {
    if introducer == 0x5B then |term| == 1 && 0x40 <= term[0] <= 0x7E
    else term == [0x9C] || term == [0x1B, 0x5C] || (term == [0x07] && introducer == 0x5D)
  }

  predicate Body(body: Bytes, introducer: Byte) {
    forall k :: 0 <= k < |body| ==> Unending(body, k, introducer)
  }

  predicate Unending(body: Bytes, k: nat, introducer: Byte)
    requires k < |body|
  {
    if introducer == 0x5B then !(0x40 <= body[k] <= 0x7E)
    else
      && body[k] != 0x9C && !(body[k] == 0x07 && introducer == 0x5D)
      && !(body[k] == 0x1B && k + 1 < |body| && body[k + 1] == 0x5C)
  }

  lemma {:induction false} BodyIsSearched(s: Bytes, from: nat, i: nat, limit: nat, body: Bytes, term: Bytes, introducer: Byte)
    requires from + |body| + |term| <= limit <= |s| && from <= i <= from + |body|
    requires s[from..from + |body| + |term|] == body + term
    requires Body(body, introducer) && Terminates(term, introducer)
    ensures SequenceEnd(s, i, limit, introducer) == from + |body| + |term|
    decreases from + |body| - i
  {
    var span := s[from..from + |body| + |term|];
    assert s[i] == span[i - from];
    assert i + 1 < from + |body| + |term| ==> s[i + 1] == span[i + 1 - from];
    if i < from + |body| {
      assert Unending(body, i - from, introducer);
      assert Terminator(s, i, limit, introducer) == 0;
      BodyIsSearched(s, from, i + 1, limit, body, term, introducer);
    } else {
      assert Terminator(s, i, limit, introducer) == |term|;
    }
  }

  function SevenBit(introducer: Byte): Bytes {
    [ESC, introducer]
  }

  /** A whole sequence of up to 4096 bytes becomes one replacement character, and the text behind it is scanned afresh. */
  lemma EscapeIsOneCharacter(introducer: Byte, body: Bytes, term: Bytes, rest: Bytes, allowNewline: bool)
    requires introducer in {0x5B, 0x5D, 0x50, 0x5F, 0x5E, 0x58}
    requires Body(body, introducer) && Terminates(term, introducer) && |body| + |term| <= 4096
    ensures Sanitized(SevenBit(introducer) + body + term + rest, allowNewline) == Encode(REPLACEMENT) + Sanitized(rest, allowNewline)
  {
    var piece := SevenBit(introducer) + body + term;
    var s := piece + rest;
    assert s[2..2 + |body| + |term|] == body + term;
    BodyIsSearched(s, 2, 2, Limit(s, 2), body, term, introducer);
    hide SequenceEnd;
    assert Next(s, 0, allowNewline) == Rune(REPLACEMENT, |piece|);
    hide Next;
    OnePiece(piece, rest, REPLACEMENT, allowNewline);
  }

  lemma SequenceEndOfSuffix(s: Bytes, at: nat, i: nat, limit: nat, introducer: Byte)
    requires at + i <= at + limit <= |s|
    ensures SequenceEnd(s, at + i, at + limit, introducer) == at + SequenceEnd(s[at..], i, limit, introducer)
    decreases limit - i
  {
    if i < limit {
      assert Terminator(s, at + i, at + limit, introducer) == Terminator(s[at..], i, limit, introducer);
      SequenceEndOfSuffix(s, at, i + 1, limit, introducer);
    }
  }

  lemma NextOfSuffix(s: Bytes, at: nat, i: nat, allowNewline: bool)
    requires at + i < |s|
    ensures Next(s, at + i, allowNewline) == Next(s[at..], i, allowNewline)
  {
    var t := s[at..];
    assert t[i..] == s[at + i..] && t[i] == s[at + i];
    if s[at + i] == ESC && i + 1 < |t| {
      assert t[i + 1] == s[at + i + 1];
      SequenceEndOfSuffix(s, at, i + 2, Limit(t, i + 2), s[at + i + 1]);
    } else if 0x80 <= s[at + i] <= 0x9F && C1Introducer(s[at + i]).Some? {
      SequenceEndOfSuffix(s, at, i + 1, Limit(t, i + 1), C1Introducer(s[at + i]).value);
    }
    hide Decode, SequenceEnd;
  }

  /** The scan looks only ahead. */
  lemma {:induction false} ScanOfSuffix(s: Bytes, at: nat, allowNewline: bool, i: nat)
    requires at + i <= |s|
    ensures Scan(s, at + i, allowNewline) == Scan(s[at..], i, allowNewline)
    decreases |s| - i
  {
    if at + i < |s| {
      NextOfSuffix(s, at, i, allowNewline);
      hide Next;
      ScanOfSuffix(s, at, allowNewline, i + Next(s, at + i, allowNewline).size);
    }
  }

  /** The eight-bit introducers start the same sequences. */
  lemma EightBitEscapeIsOneCharacter(c: Byte, body: Bytes, term: Bytes, rest: Bytes, allowNewline: bool)
    requires C1Introducer(c).Some?
    requires Body(body, C1Introducer(c).value) && Terminates(term, C1Introducer(c).value) && |body| + |term| <= 4096
    ensures Sanitized([c] + body + term + rest, allowNewline) == Encode(REPLACEMENT) + Sanitized(rest, allowNewline)
  {
    var s := [c] + body + term + rest;
    var end := 1 + |body| + |term|;
    assert s[1..end] == body + term;
    BodyIsSearched(s, 1, 1, Limit(s, 1), body, term, C1Introducer(c).value);
    assert s == ([c] + body + term) + rest;
    OnePiece([c] + body + term, rest, REPLACEMENT, allowNewline);
  }

  /** A piece that is one step of the scan is printed as that step's character. */
  lemma OnePiece(piece: Bytes, rest: Bytes, r: Scalar, allowNewline: bool)
    requires piece != [] && Next(piece + rest, 0, allowNewline) == Rune(r, |piece|)
    ensures Sanitized(piece + rest, allowNewline) == Encode(r) + Sanitized(rest, allowNewline)
  {
    var s := piece + rest;
    assert s[|piece|..] == rest;
    Printed(s, 0, allowNewline);
    ScanOfSuffix(s, |piece|, allowNewline, 0);
  }

  /** A sequence without its terminator is swallowed to the end of the text, or for 4096 bytes. */
  lemma UnterminatedEscape(introducer: Byte, body: Bytes, rest: Bytes, allowNewline: bool)
    requires introducer in {0x5B, 0x5D, 0x50, 0x5F, 0x5E, 0x58} && Body(body, introducer)
    requires |body| == 4096 || (|body| < 4096 && rest == [])
    ensures Sanitized(SevenBit(introducer) + body + rest, allowNewline) == Encode(REPLACEMENT) + Sanitized(rest, allowNewline)
  {
    var piece := SevenBit(introducer) + body;
    var s := piece + rest;
    assert s[2..2 + |body|] == body;
    BodyRunsOut(s, 2, 2, body, introducer);
    assert Limit(s, 2) == 2 + |body|;
    hide SequenceEnd;
    assert Next(s, 0, allowNewline) == Rune(REPLACEMENT, |piece|);
    hide Next;
    OnePiece(piece, rest, REPLACEMENT, allowNewline);
  }

  lemma {:induction false} BodyRunsOut(s: Bytes, from: nat, i: nat, body: Bytes, introducer: Byte)
    requires from <= i <= from + |body| <= |s| && s[from..from + |body|] == body && Body(body, introducer)
    ensures SequenceEnd(s, i, from + |body|, introducer) == from + |body|
    decreases from + |body| - i
  {
    if i < from + |body| {
      var span := s[from..from + |body|];
      assert s[i] == span[i - from];
      assert i + 1 < from + |body| ==> s[i + 1] == span[i + 1 - from];
      assert Unending(body, i - from, introducer);
      assert Terminator(s, i, from + |body|, introducer) == 0;
      BodyRunsOut(s, from, i + 1, body, introducer);
    }
  }

  /** How many bytes behind an introducer belong to its sequence. */
  function SequenceBytes(rest: Bytes, introducer: Option<Byte>): (n: nat)
    ensures n <= |rest|
  {
    if introducer.None? then 0 else SequenceEnd(rest, 0, Limit(rest, 0), introducer.value)
  }

  lemma EightBitStep(c: Byte, rest: Bytes, allowNewline: bool)
    requires 0x80 <= c <= 0x9F
    ensures Next([c] + rest, 0, allowNewline) == Rune(REPLACEMENT, 1 + SequenceBytes(rest, C1Introducer(c)))
  {
    var s := [c] + rest;
    assert s[1..] == rest;
    if C1Introducer(c).Some? {
      SequenceEndOfSuffix(s, 1, 0, Limit(rest, 0), C1Introducer(c).value);
    }
    hide SequenceEnd, Decode;
  }

  lemma SevenBitStep(c: Byte, rest: Bytes, allowNewline: bool)
    requires 0x80 <= c <= 0x9F
    ensures Next([0x1B, c - 0x40] + rest, 0, allowNewline) == Rune(REPLACEMENT, 2 + SequenceBytes(rest, C1Introducer(c)))
  {
    var s := [0x1B, c - 0x40] + rest;
    assert s[2..] == rest;
    if C1Introducer(c).Some? {
      SequenceEndOfSuffix(s, 2, 0, Limit(rest, 0), C1Introducer(c).value);
    }
    hide SequenceEnd, Decode;
  }

  /** A raw C1 byte is read exactly like ESC and the byte 0x40 below it, terminated or not. */
  lemma EightBitIsSevenBit(c: Byte, rest: Bytes, allowNewline: bool)
    requires 0x80 <= c <= 0x9F
    ensures Sanitized([c] + rest, allowNewline) == Sanitized([0x1B, c - 0x40] + rest, allowNewline)
  {
    hide Next, SequenceBytes, Sanitized, Encode;
    var n := SequenceBytes(rest, C1Introducer(c));
    EightBitStep(c, rest, allowNewline);
    SevenBitStep(c, rest, allowNewline);
    assert [c] + rest == ([c] + rest[..n]) + rest[n..];
    assert [0x1B, c - 0x40] + rest == ([0x1B, c - 0x40] + rest[..n]) + rest[n..];
    OnePiece([c] + rest[..n], rest[n..], REPLACEMENT, allowNewline);
    OnePiece([0x1B, c - 0x40] + rest[..n], rest[n..], REPLACEMENT, allowNewline);
  }

  /** Every other character stands for itself, but for DEL and the nine that override the direction of writing. */
  lemma CharacterStands(r: Scalar, rest: Bytes, allowNewline: bool)
    requires r >= 0x20
    ensures Sanitized(Encode(r) + rest, allowNewline) ==
      (if r in {0x7F, 0x202A, 0x202B, 0x202C, 0x202D, 0x202E, 0x2066, 0x2067, 0x2068, 0x2069} then [0xEF, 0xBF, 0xBD] else Encode(r))
      + Sanitized(rest, allowNewline)
  {
    var s := Encode(r) + rest;
    LongEncoding(r);
    assert Encode(REPLACEMENT) == [0xEF, 0xBF, 0xBD];
    assert s[0..] == s && s[0] == Encode(r)[0];
    if r == 0x7F {
      assert Encode(r) == [0x7F];
      ControlByte(0x7F, rest, allowNewline);
    } else if IsBidiOverride(r) {
      RefusedText(0, r, rest, allowNewline);
    } else {
      assert Encode(r) <= s[0..];
      NextOnPermitted(s, 0, r, allowNewline);
      hide Encode, Next;
      OnePiece(Encode(r), rest, r, allowNewline);
    }
  }

  /** Byte by byte: a tab becomes a space, every other control byte but a wanted line feed a replacement character. */
  lemma ControlByte(c: Byte, rest: Bytes, allowNewline: bool)
    requires c < 0x20 || c == 0x7F || (0x80 <= c <= 0x9F && C1Introducer(c).None?)
    requires c != ESC && !(c == 0x0A && allowNewline)
    ensures Sanitized([c] + rest, allowNewline) == Encode(if c == 0x09 then 0x20 else REPLACEMENT) + Sanitized(rest, allowNewline)
  {
    OnePiece([c], rest, if c == 0x09 then 0x20 else REPLACEMENT, allowNewline);
  }

  /** An ESC before any other byte takes that byte with it, and is replaced alone at the end. */
  lemma ShortEscape(c: Byte, rest: Bytes, allowNewline: bool)
    requires c !in {0x5B, 0x5D, 0x50, 0x5F, 0x5E, 0x58}
    ensures Sanitized([ESC, c] + rest, allowNewline) == Encode(REPLACEMENT) + Sanitized(rest, allowNewline)
    ensures Sanitized([ESC], allowNewline) == Encode(REPLACEMENT)
  {
    OnePiece([ESC, c], rest, REPLACEMENT, allowNewline);
    assert [ESC] + [] == [ESC] && Scan([], 0, allowNewline) == [];
    OnePiece([ESC], [], REPLACEMENT, allowNewline);
  }

  /** A byte that starts no character is replaced by itself; a direction override is replaced as a whole. */
  lemma RefusedText(c: Byte, r: Scalar, rest: Bytes, allowNewline: bool)
    ensures c > 0x9F && Decode([c] + rest).None? ==>
      Sanitized([c] + rest, allowNewline) == Encode(REPLACEMENT) + Sanitized(rest, allowNewline)
    ensures IsBidiOverride(r) ==>
      Sanitized(Encode(r) + rest, allowNewline) == Encode(REPLACEMENT) + Sanitized(rest, allowNewline)
  {
    if c > 0x9F && Decode([c] + rest).None? {
      assert ([c] + rest)[0..] == [c] + rest;
      OnePiece([c], rest, REPLACEMENT, allowNewline);
    }
    if IsBidiOverride(r) {
      var s := Encode(r) + rest;
      LongEncoding(r);
      DecodeFindsEncodings(s, r, |Encode(r)|);
      assert s[0..] == s && s[0] == Encode(r)[0];
      OnePiece(Encode(r), rest, REPLACEMENT, allowNewline);
    }
  }

  // ------------------------------------------------------- what gets through

  predicate IsC1(r: Scalar) {
    0x80 <= r <= 0x9F
  }

  /** The positions at which the scan takes a step. */
  function Starts(s: Bytes, i: nat, allowNewline: bool): set<nat>
    requires i <= |s|
    decreases |s| - i
  {
    if i == |s| then {} else {i} + Starts(s, i + Next(s, i, allowNewline).size, allowNewline)
  }

  predicate EncodedC1(s: Bytes, i: nat) {
    i + 1 < |s| && s[i] == 0xC2 && 0x80 <= s[i + 1] <= 0x9F
  }

  lemma NextIsC1(s: Bytes, i: nat, allowNewline: bool)
    requires i < |s|
    ensures IsC1(Next(s, i, allowNewline).value) <==> EncodedC1(s, i)
  {
    if s[i] > 0x9F {
      var t := s[i..];
      assert t[0] == s[i] && (|t| > 1 ==> t[1] == s[i + 1]);
      if Decode(t).Some? {
        var d := Decode(t).value;
        DecodeFindsEncodings(t, d.value, d.size);
        C1Encoding(d.value);
        hide Encode;
      } else {
        assert !EncodedC1(s, i);
      }
    }
  }

  lemma C1Encoding(r: Scalar)
    ensures IsC1(r) <==> |Encode(r)| == 2 && Encode(r)[0] == 0xC2 && Encode(r)[1] <= 0x9F
    ensures Encode(r)[0] == 0xC2 ==> |Encode(r)| == 2 && Encode(r)[1] >= 0x80
  {
  }

  ghost predicate HasC1(text: seq<Scalar>) {
    exists k :: 0 <= k < |text| && IsC1(text[k])
  }

  ghost predicate C1Reached(s: Bytes, i: nat, allowNewline: bool)
    requires i <= |s|
  {
    exists k :: k in Starts(s, i, allowNewline) && EncodedC1(s, k)
  }

  lemma {:induction false} C1Passes(s: Bytes, i: nat, allowNewline: bool)
    requires i <= |s|
    ensures HasC1(Scan(s, i, allowNewline)) <==> C1Reached(s, i, allowNewline)
    decreases |s| - i
  {
    if i < |s| {
      var step := Next(s, i, allowNewline);
      var j := i + step.size;
      NextIsC1(s, i, allowNewline);
      C1Passes(s, j, allowNewline);
      HasC1Steps(step.value, Scan(s, j, allowNewline));
      assert Starts(s, i, allowNewline) == {i} + Starts(s, j, allowNewline);
      hide Next, EncodedC1, IsC1, HasC1;
      assert C1Reached(s, i, allowNewline) <==> EncodedC1(s, i) || C1Reached(s, j, allowNewline);
    }
  }

  lemma HasC1Steps(r: Scalar, text: seq<Scalar>)
    ensures HasC1([r] + text) <==> IsC1(r) || HasC1(text)
  {
    var all := [r] + text;
    if IsC1(r) {
      assert IsC1(all[0]);
    }
    if HasC1(text) {
      var k :| 0 <= k < |text| && IsC1(text[k]);
      assert all[k + 1] == text[k];
    }
    if HasC1(all) {
      var k :| 0 <= k < |all| && IsC1(all[k]);
      assert k > 0 ==> all[k] == text[k - 1];
    }
  }

  /**
   * A C1 control written as two-byte UTF-8 is printed, exactly when the scan reaches it outside the
   * sequences it swallows: only raw C1 bytes are replaced.
   */
  lemma C1SurvivesExactly(s: Bytes, allowNewline: bool)
    ensures HasC1(Scan(s, 0, allowNewline)) <==> C1Reached(s, 0, allowNewline)
  {
    C1Passes(s, 0, allowNewline);
  }

  /** For one: U+009B, the eight-bit CSI, is left as it is. */
  lemma CsiInUtf8Survives(allowNewline: bool)
    ensures Sanitized([0xC2, 0x9B], allowNewline) == [0xC2, 0x9B]
  {
    var text: seq<Scalar> := [0x9B];
    assert Encode(0x9B) == [0xC2, 0x9B] && text[1..] == [];
    assert EncodeAll(text) == Encode(0x9B) + EncodeAll([]);
    LeftAloneExactly([0xC2, 0x9B], allowNewline);
    assert IsClean([0xC2, 0x9B], allowNewline) by {
      assert AllPermitted(text, allowNewline);
    }
  }

  // ------------------------------------------------------- cutting the text

  lemma SequenceEndOfPrefix(s: Bytes, k: nat, i: nat, limit: nat, introducer: Byte)
    requires i <= limit <= |s| && SequenceEnd(s, i, limit, introducer) <= k <= |s|
    ensures SequenceEnd(s[..k], i, Min(limit, k), introducer) == SequenceEnd(s, i, limit, introducer)
    decreases limit - i
  {
    if i < limit {
      assert s[..k][i] == s[i] && (i + 1 < k ==> s[..k][i + 1] == s[i + 1]);
      assert Terminator(s[..k], i, Min(limit, k), introducer) == Terminator(s, i, limit, introducer);
      if Terminator(s, i, limit, introducer) == 0 {
        SequenceEndOfPrefix(s, k, i + 1, limit, introducer);
      }
    }
  }

  /** A step does not depend on what stands behind the bytes it takes. */
  lemma NextOfPrefix(s: Bytes, k: nat, i: nat, allowNewline: bool)
    requires i < |s| && i + Next(s, i, allowNewline).size <= k <= |s|
    ensures Next(s[..k], i, allowNewline) == Next(s, i, allowNewline)
  {
    var t := s[..k];
    assert t[i] == s[i];
    if s[i] == ESC {
      if i + 1 < |s| {
        assert t[i + 1] == s[i + 1];
        if s[i + 1] in {CSI, OSC, DCS, APC, PM, SOS} {
          SequenceEndOfPrefix(s, k, i + 2, Limit(s, i + 2), s[i + 1]);
        }
      }
    } else if 0x80 <= s[i] <= 0x9F {
      if C1Introducer(s[i]).Some? {
        SequenceEndOfPrefix(s, k, i + 1, Limit(s, i + 1), C1Introducer(s[i]).value);
      }
    } else if s[i] > 0x9F {
      DecodeOfPrefix(s[i..], k - i);
      assert t[i..] == s[i..][..k - i];
    }
    hide Decode, SequenceEnd;
  }

  lemma DecodeOfPrefix(s: Bytes, k: nat)
    requires k <= |s| && (Decode(s).Some? ==> Decode(s).value.size <= k)
    ensures Decode(s[..k]) == Decode(s)
  {
    if Decode(s).Some? {
      var d := Decode(s).value;
      DecodeFindsEncodings(s, d.value, d.size);
      DecodeFindsEncodings(s[..k], d.value, d.size);
    }
    if Decode(s[..k]).Some? {
      var d := Decode(s[..k]).value;
      DecodeFindsEncodings(s[..k], d.value, d.size);
      DecodeFindsEncodings(s, d.value, d.size);
    }
  }

  lemma ScanUnfolds(s: Bytes, i: nat, allowNewline: bool)
    requires i < |s|
    ensures var step := Next(s, i, allowNewline);
      && Scan(s, i, allowNewline) == [step.value] + Scan(s, i + step.size, allowNewline)
      && Starts(s, i, allowNewline) == {i} + Starts(s, i + step.size, allowNewline)
  {
    hide Next;
  }

  lemma NothingToScan(s: Bytes, allowNewline: bool)
    ensures Scan(s, |s|, allowNewline) == []
  {
  }

  lemma {:induction false} StartsAhead(s: Bytes, i: nat, k: nat, allowNewline: bool)
    requires i <= |s| && k in Starts(s, i, allowNewline)
    ensures i <= k < |s|
    decreases |s| - i
  {
    if k != i {
      ScanUnfolds(s, i, allowNewline);
      hide Next, Scan, Starts;
      StartsAhead(s, i + Next(s, i, allowNewline).size, k, allowNewline);
    }
  }

  lemma {:induction false} ScanIsCut(s: Bytes, i: nat, k: nat, allowNewline: bool)
    requires i <= |s| && k in Starts(s, i, allowNewline)
    ensures i <= k <= |s| && Scan(s, i, allowNewline) == Scan(s[..k], i, allowNewline) + Scan(s, k, allowNewline)
    decreases |s| - i
  {
    hide Next, Scan, Starts;
    StartsAhead(s, i, k, allowNewline);
    ScanUnfolds(s, i, allowNewline);
    if i == k {
      NothingToScan(s[..k], allowNewline);
    } else {
      var j := i + Next(s, i, allowNewline).size;
      StartsAhead(s, j, k, allowNewline);
      NextOfPrefix(s, k, i, allowNewline);
      ScanUnfolds(s[..k], i, allowNewline);
      ScanIsCut(s, j, k, allowNewline);
    }
  }

  /** A text may be cut wherever the scan takes a step: both parts are sanitized alone. */
  lemma SanitizedIsCut(s: Bytes, k: nat, allowNewline: bool)
    requires k in Starts(s, 0, allowNewline)
    ensures k < |s| && Sanitized(s, allowNewline) == Sanitized(s[..k], allowNewline) + Sanitized(s[k..], allowNewline)
  {
    StartsAhead(s, 0, k, allowNewline);
    ScanIsCut(s, 0, k, allowNewline);
    ScanOfSuffix(s, k, allowNewline, 0);
    EncodeAllJoin(Scan(s[..k], 0, allowNewline), Scan(s, k, allowNewline));
  }

  /** A carriage return is replaced wherever it stands, even before a line feed: a CRLF keeps a replacement character. */
  lemma CarriageReturnIsReplaced(s: Bytes, k: nat, allowNewline: bool)
    requires k in Starts(s, 0, allowNewline)
    ensures k < |s|
    ensures s[k] == 0x0D ==>
      Sanitized(s, allowNewline) == Sanitized(s[..k], allowNewline) + (Encode(REPLACEMENT) + Sanitized(s[k + 1..], allowNewline))
    ensures s[k] == 0x0D && k + 1 < |s| && s[k + 1] == 0x0A && allowNewline ==>
      Sanitized(s, true) == Sanitized(s[..k], true) + (Encode(REPLACEMENT) + ([0x0A] + Sanitized(s[k + 2..], true)))
  {
    SanitizedIsCut(s, k, allowNewline);
    if s[k] == 0x0D {
      var rest := s[k + 1..];
      assert s[k..] == [0x0D] + rest;
      ControlByte(0x0D, rest, allowNewline);
      if k + 1 < |s| && s[k + 1] == 0x0A && allowNewline {
        assert rest == [0x0A] + s[k + 2..];
        AsciiIsItself(0x0A);
        OnePiece([0x0A], s[k + 2..], 0x0A, true);
      }
    }
  }
}
