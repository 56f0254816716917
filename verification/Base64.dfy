/** Base64 with padding: RFC 4648, section 4. */
module Base64 {
  import opened Options
  import opened Utf8

  type Sextet = n: int | 0 <= n < 64

  const PAD: Byte := 0x3D

  function Symbol(n: Sextet): Byte {
    if n < 26 then 0x41 + n
    else if n < 52 then 0x61 + (n - 26)
    else if n < 62 then 0x30 + (n - 52)
    else if n == 62 then 0x2B
    else 0x2F
  }

  function Value(c: Byte): Option<Sextet> {
    if 0x41 <= c <= 0x5A then Some(c - 0x41)
    else if 0x61 <= c <= 0x7A then Some(c - 0x61 + 26)
    else if 0x30 <= c <= 0x39 then Some(c - 0x30 + 52)
    else if c == 0x2B then Some(62)
    else if c == 0x2F then Some(63)
    else None
  }

  function EncodeGroup(group: Bytes): Bytes
    requires 1 <= |group| <= 3
  {
    var a := group[0];
    var b := if |group| > 1 then group[1] else 0;
    var c := if |group| > 2 then group[2] else 0;
    [Symbol(a / 4), Symbol(a % 4 * 16 + b / 16),
     if |group| > 1 then Symbol(b % 16 * 4 + c / 64) else PAD,
     if |group| > 2 then Symbol(c % 64) else PAD]
  }

  function Encoded(raw: Bytes): Bytes {
    if |raw| == 0 then [] else if |raw| <= 3 then EncodeGroup(raw) else EncodeGroup(raw[..3]) + Encoded(raw[3..])
  }

  /** Reads one group back; padding bits must be zero. */
  function DecodeGroup(text: Bytes): Option<Bytes>
    requires |text| == 4
  {
    if Value(text[0]).None? || Value(text[1]).None? then None
    else
      var a, b := Value(text[0]).value, Value(text[1]).value;
      if text[2] == 0x3D && text[3] == 0x3D then
        if b % 16 == 0 then Some([a * 4 + b / 16]) else None
      else if Value(text[2]).None? then None
      else
        var c := Value(text[2]).value;
        if text[3] == 0x3D then
          if c % 4 == 0 then Some([a * 4 + b / 16, b % 16 * 16 + c / 4]) else None
        else if Value(text[3]).None? then None
        else Some([a * 4 + b / 16, b % 16 * 16 + c / 4, c % 4 * 64 + Value(text[3]).value])
  }

  function Decoded(text: Bytes): Option<Bytes> {
    if text == [] then Some([])
    else if |text| < 4 then None
    else
      var group := DecodeGroup(text[..4]);
      if group.None? || (|group.value| < 3 && |text| > 4) then None
      else
        var rest := Decoded(text[4..]);
        if rest.None? then None else Some(group.value + rest.value)
  }

  lemma SymbolsAreValues(n: Sextet)
    ensures Value(Symbol(n)) == Some(n) && Symbol(n) != PAD
  {
  }

  lemma ValuesAreSymbols(c: Byte)
    requires Value(c).Some?
    ensures Symbol(Value(c).value) == c && c != PAD
  {
  }

  lemma GroupBack(group: Bytes)
    requires 1 <= |group| <= 3
    ensures DecodeGroup(EncodeGroup(group)) == Some(group)
  {
    var a := group[0];
    var b := if |group| > 1 then group[1] else 0;
    var c := if |group| > 2 then group[2] else 0;
    var text := EncodeGroup(group);
    SymbolsAreValues(a / 4);
    SymbolsAreValues(a % 4 * 16 + b / 16);
    SymbolsAreValues(b % 16 * 4 + c / 64);
    SymbolsAreValues(c % 64);
    JoinSextets(a, b, c);
    hide Symbol, Value;
    if |group| == 1 {
      assert DecodeGroup(text) == Some([a]);
      assert group == [a];
    } else if |group| == 2 {
      assert DecodeGroup(text) == Some([a, b]);
      assert group == [a, b];
    } else {
      assert DecodeGroup(text) == Some([a, b, c]);
      assert group == [a, b, c];
    }
  }

  lemma JoinSextets(a: Byte, b: Byte, c: Byte)
    ensures a / 4 * 4 + (a % 4 * 16 + b / 16) / 16 == a
    ensures (a % 4 * 16 + b / 16) % 16 * 16 + (b % 16 * 4 + c / 64) / 4 == b
    ensures (b % 16 * 4 + c / 64) % 4 * 64 + c % 64 == c
    ensures b == 0 ==> (a % 4 * 16 + b / 16) % 16 == 0
    ensures c == 0 ==> (b % 16 * 4 + c / 64) % 4 == 0
  {
  }

  lemma SplitSextets(a: Sextet, b: Sextet, c: Sextet, d: Sextet)
    ensures (a * 4 + b / 16) / 4 == a
    ensures (a * 4 + b / 16) % 4 * 16 + (b % 16 * 16 + c / 4) / 16 == b
    ensures (b % 16 * 16 + c / 4) % 16 * 4 + (c % 4 * 64 + d) / 64 == c
    ensures (c % 4 * 64 + d) % 64 == d
  {
  }

  lemma GroupForth(text: Bytes)
    requires |text| == 4 && DecodeGroup(text).Some?
    ensures 1 <= |DecodeGroup(text).value| <= 3 && EncodeGroup(DecodeGroup(text).value) == text
  {
    ValuesAreSymbols(text[0]);
    ValuesAreSymbols(text[1]);
    var a, b := Value(text[0]).value, Value(text[1]).value;
    var group := DecodeGroup(text).value;
    if text[2] == PAD && text[3] == PAD {
      SplitSextets(a, b, 0, 0);
      OneByte(group);
    } else if text[3] == PAD {
      ValuesAreSymbols(text[2]);
      SplitSextets(a, b, Value(text[2]).value, 0);
      TwoBytes(group);
    } else {
      ValuesAreSymbols(text[2]);
      ValuesAreSymbols(text[3]);
      SplitSextets(a, b, Value(text[2]).value, Value(text[3]).value);
    }
    hide Symbol, Value;
  }

  lemma OneByte(group: Bytes)
    requires |group| == 1
    ensures EncodeGroup(group) == [Symbol(group[0] / 4), Symbol(group[0] % 4 * 16), PAD, PAD]
  {
  }

  lemma TwoBytes(group: Bytes)
    requires |group| == 2
    ensures EncodeGroup(group) == [Symbol(group[0] / 4), Symbol(group[0] % 4 * 16 + group[1] / 16), Symbol(group[1] % 16 * 4), PAD]
  {
  }

  lemma {:induction false} DecodedEncoded(raw: Bytes)
    ensures Decoded(Encoded(raw)) == Some(raw)
  {
    if |raw| > 3 {
      var head, tail := EncodeGroup(raw[..3]), Encoded(raw[3..]);
      assert Encoded(raw)[..4] == head && Encoded(raw)[4..] == tail;
      GroupBack(raw[..3]);
      DecodedEncoded(raw[3..]);
      assert raw == raw[..3] + raw[3..];
    } else if raw != [] {
      assert Encoded(raw)[..4] == EncodeGroup(raw) && Encoded(raw)[4..] == [];
      GroupBack(raw);
      hide DecodeGroup, EncodeGroup;
      assert raw + [] == raw && Decoded([]) == Some([]);
    }
  }

  lemma {:induction false} EncodedDecoded(text: Bytes)
    requires Decoded(text).Some?
    ensures Encoded(Decoded(text).value) == text
  {
    if text != [] {
      var group := DecodeGroup(text[..4]).value;
      GroupForth(text[..4]);
      EncodedDecoded(text[4..]);
      var rest := Decoded(text[4..]).value;
      assert text == text[..4] + text[4..];
      assert |group| == 3 ==> (group + rest)[..3] == group && (group + rest)[3..] == rest;
    }
  }

  /** Decoding and encoding are inverse: a text decodes to the bytes it is the encoding of, and nothing else decodes. */
  lemma DecodesExactly(text: Bytes, raw: Bytes)
    ensures Decoded(text) == Some(raw) <==> text == Encoded(raw)
  {
    DecodedEncoded(raw);
    if Decoded(text).Some? {
      EncodedDecoded(text);
    }
  }

  /** What a base64 text is made of: never a byte that could end an escape sequence. */
  predicate IsSymbol(c: Byte) {
    c == PAD || Value(c).Some?
  }

  lemma {:induction false} EncodedSymbols(raw: Bytes, k: nat)
    requires k < |Encoded(raw)|
    ensures IsSymbol(Encoded(raw)[k])
  {
    if |raw| > 3 && k >= 4 {
      assert Encoded(raw)[k] == Encoded(raw[3..])[k - 4];
      EncodedSymbols(raw[3..], k - 4);
    }
  }
}
