/** UTF-8: the encoding of RFC 3629, section 3, and the decoder that follows the byte sequences of its section 4. */
module Utf8 {
  import opened Options

  type Byte = b: int | 0 <= b < 0x100
  type Bytes = seq<Byte>

  /** A Unicode scalar value: any code point but a surrogate. */
  type Scalar = r: int | 0 <= r < 0xD800 || 0xE000 <= r < 0x11_0000

  function Encode(r: Scalar): Bytes {
    if r < 0x80 then [r]
    else if r < 0x800 then [0xC0 + r / 0x40, 0x80 + r % 0x40]
    else if r < 0x1_0000 then [0xE0 + r / 0x1000, 0x80 + r / 0x40 % 0x40, 0x80 + r % 0x40]
    else [0xF0 + r / 0x4_0000, 0x80 + r / 0x1000 % 0x40, 0x80 + r / 0x40 % 0x40, 0x80 + r % 0x40]
  }

  function EncodeAll(text: seq<Scalar>): Bytes {
    if text == [] then [] else Encode(text[0]) + EncodeAll(text[1..])
  }

  datatype Rune = Rune(value: Scalar, size: nat)

  predicate Tail(b: Byte) {
    0x80 <= b <= 0xBF
  }

  /** The first character of `s`, or nothing where the decoder reports an error of width one (or no input). */
  function Decode(s: Bytes): Option<Rune> {
    if s == [] then None
    else if s[0] < 0x80 then Some(Rune(s[0], 1))
    else if s[0] < 0xC2 || s[0] > 0xF4 || |s| < 2 then None
    else if s[0] < 0xE0 then
      if Tail(s[1]) then Some(Rune(Two(s[0], s[1]), 2)) else None
    else if !(SecondFrom(s[0]) <= s[1] <= SecondTo(s[0])) || |s| < 3 || !Tail(s[2]) then None
    else if s[0] < 0xF0 then
      Some(Rune(Three(s[0], s[1], s[2]), 3))
    else if |s| < 4 || !Tail(s[3]) then None
    else Some(Rune(Four(s[0], s[1], s[2], s[3]), 4))
  }

  function SecondFrom(lead: Byte): Byte {
    if lead == 0xE0 then 0xA0 else if lead == 0xF0 then 0x90 else 0x80
  }

  function SecondTo(lead: Byte): Byte {
    if lead == 0xED then 0x9F else if lead == 0xF4 then 0x8F else 0xBF
  }

  function Two(a: Byte, b: Byte): Scalar
    requires 0xC2 <= a < 0xE0 && Tail(b)
  {
    (a - 0xC0) * 0x40 + (b - 0x80)
  }

  function Three(a: Byte, b: Byte, c: Byte): Scalar
    requires 0xE0 <= a < 0xF0 && SecondFrom(a) <= b <= SecondTo(a) && Tail(c)
  {
    (a - 0xE0) * 0x1000 + (b - 0x80) * 0x40 + (c - 0x80)
  }

  function Four(a: Byte, b: Byte, c: Byte, d: Byte): Scalar
    requires 0xF0 <= a <= 0xF4 && SecondFrom(a) <= b <= SecondTo(a) && Tail(c) && Tail(d)
  {
    (a - 0xF0) * 0x4_0000 + (b - 0x80) * 0x1000 + (c - 0x80) * 0x40 + (d - 0x80)
  }

  /** The decoder accepts exactly the encodings, and reads each back as the character it encodes. */
  lemma DecodeFindsEncodings(s: Bytes, r: Scalar, n: nat)
    ensures Decode(s) == Some(Rune(r, n)) <==> n == |Encode(r)| && Encode(r) <= s
  {
    if Encode(r) <= s && n == |Encode(r)| {
      DecodeEncoded(s, r);
    }
    if Decode(s) == Some(Rune(r, n)) {
      EncodeDecoded(s);
    }
  }

  lemma DecodeEncoded(s: Bytes, r: Scalar)
    requires Encode(r) <= s
    ensures Decode(s) == Some(Rune(r, |Encode(r)|))
  {
    var e := Encode(r);
    assert s[0] == e[0];
    assert |e| > 1 ==> s[1] == e[1];
    assert |e| > 2 ==> s[2] == e[2];
    assert |e| > 3 ==> s[3] == e[3];
    if 0x80 <= r < 0x800 {
      TwoBack(r);
    } else if 0x800 <= r < 0x1_0000 {
      ThreeBack(r);
    } else if 0x1_0000 <= r {
      FourBack(r);
    }
    hide Encode, Two, Three, Four;
  }

  lemma TwoBack(r: Scalar)
    requires 0x80 <= r < 0x800
    ensures var e := Encode(r); |e| == 2 && 0xC2 <= e[0] < 0xE0 && Tail(e[1]) && Two(e[0], e[1]) == r
  {
  }

  lemma ThreeBack(r: Scalar)
    requires 0x800 <= r < 0x1_0000
    ensures var e := Encode(r);
      |e| == 3 && 0xE0 <= e[0] < 0xF0 && SecondFrom(e[0]) <= e[1] <= SecondTo(e[0]) && Tail(e[2]) && Three(e[0], e[1], e[2]) == r
  {
    var a, b, c := r / 0x1000, r / 0x40 % 0x40, r % 0x40;
    assert r == a * 0x1000 + b * 0x40 + c;
  }

  lemma FourBack(r: Scalar)
    requires 0x1_0000 <= r
    ensures var e := Encode(r);
      |e| == 4 && 0xF0 <= e[0] <= 0xF4 && SecondFrom(e[0]) <= e[1] <= SecondTo(e[0]) && Tail(e[2]) && Tail(e[3]) && Four(e[0], e[1], e[2], e[3]) == r
  {
    var a, b, c, d := r / 0x4_0000, r / 0x1000 % 0x40, r / 0x40 % 0x40, r % 0x40;
    assert r == a * 0x4_0000 + b * 0x1000 + c * 0x40 + d;
  }

  lemma EncodeDecoded(s: Bytes)
    requires Decode(s).Some?
    ensures Encode(Decode(s).value.value) <= s && |Encode(Decode(s).value.value)| == Decode(s).value.size
  {
    if 0x80 <= s[0] < 0xE0 {
      EncodeTwo(s[0], s[1]);
    } else if 0xE0 <= s[0] < 0xF0 {
      EncodeThree(s[0], s[1], s[2]);
    } else if 0xF0 <= s[0] {
      EncodeFour(s[0], s[1], s[2], s[3]);
    }
    hide Two, Three, Four;
  }

  lemma EncodeTwo(a: Byte, b: Byte)
    requires 0xC2 <= a < 0xE0 && Tail(b)
    ensures Encode(Two(a, b)) == [a, b]
  {
    var r: int := Two(a, b);
    assert r / 0x40 == a - 0xC0 && r % 0x40 == b - 0x80;
  }

  lemma EncodeThree(a: Byte, b: Byte, c: Byte)
    requires 0xE0 <= a < 0xF0 && SecondFrom(a) <= b <= SecondTo(a) && Tail(c)
    ensures Encode(Three(a, b, c)) == [a, b, c]
  {
    var r: int := Three(a, b, c);
    assert r / 0x40 == (a - 0xE0) * 0x40 + (b - 0x80) && r % 0x40 == c - 0x80;
    assert r / 0x1000 == a - 0xE0;
  }

  lemma EncodeFour(a: Byte, b: Byte, c: Byte, d: Byte)
    requires 0xF0 <= a <= 0xF4 && SecondFrom(a) <= b <= SecondTo(a) && Tail(c) && Tail(d)
    ensures Encode(Four(a, b, c, d)) == [a, b, c, d]
  {
    var r: int := Four(a, b, c, d);
    assert r / 0x40 == (a - 0xF0) * 0x1000 + (b - 0x80) * 0x40 + (c - 0x80) && r % 0x40 == d - 0x80;
    assert r / 0x1000 == (a - 0xF0) * 0x40 + (b - 0x80);
    assert r / 0x4_0000 == a - 0xF0;
  }

  lemma {:induction false} EncodeAllJoin(a: seq<Scalar>, b: seq<Scalar>)
    ensures EncodeAll(a + b) == EncodeAll(a) + EncodeAll(b)
  {
    if a == [] {
      assert a + b == b;
    } else {
      assert (a + b)[1..] == a[1..] + b;
      EncodeAllJoin(a[1..], b);
    }
  }
}
