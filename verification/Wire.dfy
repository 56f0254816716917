/** Bytes: control characters, literal text, decimal numbers, separators. */
module Wire {
  import opened Options
  import opened Utf8

  const ESC: Byte := 0x1B
  const BEL: Byte := 0x07
  const BACKSLASH: Byte := 0x5C
  const COMMA: Byte := 0x2C
  const SEMICOLON: Byte := 0x3B
  const COLON: Byte := 0x3A
  const EQUALS: Byte := 0x3D

  /** The bytes of a seven-bit literal. */
  function Ascii(text: string): (b: Bytes)
    ensures |b| == |text|
    ensures forall k :: 0 <= k < |text| ==> b[k] == text[k] as int % 0x80
  {
    seq(|text|, k requires 0 <= k < |text| => text[k] as int % 0x80)
  }

  function Decimal(n: nat): (b: Bytes)
    ensures b != []
    ensures forall k :: 0 <= k < |b| ==> 0x30 <= b[k] <= 0x39
  {
    if n < 10 then [0x30 + n] else Decimal(n / 10) + [0x30 + n % 10]
  }

  function Number(b: Bytes): nat
    requires forall k :: 0 <= k < |b| ==> 0x30 <= b[k] <= 0x39
  {
    if b == [] then 0 else Number(b[..|b| - 1]) * 10 + (b[|b| - 1] - 0x30)
  }

  lemma {:induction false} NumberOfDecimal(n: nat)
    ensures Number(Decimal(n)) == n
  {
    if n >= 10 {
      NumberOfDecimal(n / 10);
      assert Decimal(n)[..|Decimal(n)| - 1] == Decimal(n / 10);
    } else {
      assert Number([]) == 0 && Decimal(n)[..0] == [];
    }
  }

  /** The position of the first `c`, or the length of `b` if there is none. */
  function IndexOf(b: Bytes, c: Byte): (i: nat)
    ensures i <= |b| && c !in b[..i] && (i < |b| ==> b[i] == c)
  {
    if b == [] || b[0] == c then 0 else IndexOf(b[1..], c) + 1
  }

  lemma {:induction false} IndexBehind(a: Bytes, c: Byte, rest: Bytes)
    requires c !in a
    ensures IndexOf(a + [c] + rest, c) == |a|
  {
    if a != [] {
      assert (a + [c] + rest)[1..] == a[1..] + [c] + rest;
      IndexBehind(a[1..], c, rest);
    }
  }

  function Split(b: Bytes, c: Byte): seq<Bytes>
    decreases |b|
  {
    var i := IndexOf(b, c);
    if i == |b| then [b] else [b[..i]] + Split(b[i + 1..], c)
  }

  function Join(fields: seq<Bytes>, c: Byte): Bytes {
    if fields == [] then [] else if |fields| == 1 then fields[0] else fields[0] + [c] + Join(fields[1..], c)
  }

  lemma {:induction false} SplitOfJoin(fields: seq<Bytes>, c: Byte)
    requires fields != [] && forall k :: 0 <= k < |fields| ==> c !in fields[k]
    ensures Split(Join(fields, c), c) == fields
    decreases |fields|
  {
    var b := Join(fields, c);
    if |fields| == 1 {
      assert IndexOf(b, c) == |b|;
    } else {
      var rest := Join(fields[1..], c);
      IndexBehind(fields[0], c, rest);
      assert b[..|fields[0]|] == fields[0] && b[|fields[0]| + 1..] == rest;
      SplitOfJoin(fields[1..], c);
    }
  }

  // ------------------------------------------------------------- keys and values

  /** The text behind `key` and an equals sign, in the first field that has that key. */
  function ValueOf(fields: seq<Bytes>, key: Bytes): Option<Bytes> {
    if fields == [] then None
    else
      var i := IndexOf(fields[0], 0x3D);
      if i < |fields[0]| && fields[0][..i] == key then Some(fields[0][i + 1..]) else ValueOf(fields[1..], key)
  }

  /** That text as a decimal number, if it is one. */
  function NumberOf(fields: seq<Bytes>, key: Bytes): Option<nat> {
    var v := ValueOf(fields, key);
    if v.Some? && v.value != [] && forall k :: 0 <= k < |v.value| ==> 0x30 <= v.value[k] <= 0x39 then Some(Number(v.value)) else None
  }

  function Field(key: Bytes, value: Bytes): Bytes {
    key + [EQUALS] + value
  }

  lemma FieldIsRead(key: Bytes, value: Bytes, rest: seq<Bytes>, asked: Bytes)
    requires EQUALS !in key
    ensures ValueOf([Field(key, value)] + rest, asked) == if asked == key then Some(value) else ValueOf(rest, asked)
  {
    var fields := [Field(key, value)] + rest;
    IndexBehind(key, EQUALS, value);
    assert fields[1..] == rest && Field(key, value)[..|key|] == key && Field(key, value)[|key| + 1..] == value;
  }

  /** Fields with distinct keys are each read back under their key. */
  lemma {:induction false} FieldsAreRead(fields: seq<Bytes>, keys: seq<Bytes>, values: seq<Bytes>, k: nat)
    requires |fields| == |keys| == |values| && k < |fields|
    requires forall i :: 0 <= i < |fields| ==> fields[i] == Field(keys[i], values[i]) && EQUALS !in keys[i]
    requires forall i :: 0 <= i < k ==> keys[i] != keys[k]
    ensures ValueOf(fields, keys[k]) == Some(values[k])
  {
    assert fields == [Field(keys[0], values[0])] + fields[1..];
    FieldIsRead(keys[0], values[0], fields[1..], keys[k]);
    if k > 0 {
      FieldsAreRead(fields[1..], keys[1..], values[1..], k - 1);
    }
  }

  lemma DecimalIsRead(fields: seq<Bytes>, key: Bytes, n: nat)
    requires ValueOf(fields, key) == Some(Decimal(n))
    ensures NumberOf(fields, key) == Some(n)
  {
    NumberOfDecimal(n);
  }

  function Concat(parts: seq<Bytes>): Bytes {
    if parts == [] then [] else parts[0] + Concat(parts[1..])
  }

  /** All but the first `n` bytes; nothing if there are no more. */
  function Dropped(b: Bytes, n: nat): Bytes {
    if n <= |b| then b[n..] else []
  }

  lemma Regroup(a: Bytes, b: Bytes, c: Bytes, d: Bytes)
    ensures a + b + c + d == a + (b + c + d)
    ensures a + b + c + d == a + (b + (c + d))
    ensures (a + b + c + d)[|a| + |b|..] == c + d
  {
  }
}
