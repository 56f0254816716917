/** The kitty graphics protocol: one image in commands of at most 4096 bytes of base64 each. */
module Kitty {
  import opened Options
  import opened Utf8
  import opened Wire
  import Base64
  import Tmux

  const CHUNK_SIZE := 4096

  datatype Header = Header(width: nat, height: nat, id: nat, cols: nat, rows: nat)

  // ----------------------------------------------------------------- sending

  function Chunks(s: Bytes, size: nat): seq<Bytes>
    requires size > 0
  {
    if |s| <= size then [s] else [s[..size]] + Chunks(s[size..], size)
  }

  method ChunkString(s: Bytes, size: nat) returns (chunks: seq<Bytes>)
    requires size > 0
    ensures chunks == Chunks(s, size)
  {
    if |s| == 0 {
      return [[]];
    }
    chunks := [];
    var rest := s;
    while |rest| > size
      invariant chunks + Chunks(rest, size) == Chunks(s, size)
      decreases |rest|
    {
      chunks := chunks + [rest[..size]];
      rest := rest[size..];
    }
    return chunks + [rest];
  }

  function Flag(more: bool): Bytes {
    if more then Ascii("m=1") else Ascii("m=0")
  }

  function Fields(h: Header): seq<Bytes> {
    [Ascii("a=T"), Ascii("f=32"), Ascii("s=") + Decimal(h.width), Ascii("v=") + Decimal(h.height),
     Ascii("i=") + Decimal(h.id), Ascii("c=") + Decimal(h.cols), Ascii("r=") + Decimal(h.rows), Ascii("q=2")]
  }

  /** The control data of a command: everything on the first, only the flag on the others. */
  function Control(h: Header, first: bool, more: bool): Bytes {
    Join((if first then Fields(h) else []) + [Flag(more)], COMMA)
  }

  function Command(control: Bytes, payload: Bytes): Bytes {
    Ascii("\U{1B}_G") + control + [SEMICOLON] + payload + [ESC, BACKSLASH]
  }

  function Commands(h: Header, first: bool, chunks: seq<Bytes>): Bytes {
    if chunks == [] then []
    else Command(Control(h, first, |chunks| > 1), chunks[0]) + Commands(h, false, chunks[1..])
  }

  method BuildTransmit(h: Header, b64: Bytes) returns (out: Bytes)
    ensures out == Commands(h, true, Chunks(b64, CHUNK_SIZE))
  {
    hide Fields, Flag, Join, Chunks, Control, Command;
    var chunks := ChunkString(b64, CHUNK_SIZE);
    out := [];
    for i := 0 to |chunks|
      invariant out + Commands(h, i == 0, chunks[i..]) == Commands(h, true, chunks)
    {
      var more := i < |chunks| - 1;
      var control := if i == 0 then Join(Fields(h) + [Flag(more)], COMMA) else Join([Flag(more)], COMMA);
      ControlOf(h, i == 0, more);
      ghost var before := out;
      out := out + Ascii("\U{1B}_G");
      out := out + control;
      out := out + [SEMICOLON];
      out := out + chunks[i];
      out := out + [ESC, BACKSLASH];
      Written(before, control, chunks[i]);
      assert chunks[i..][1..] == chunks[i + 1..];
    }
  }

  lemma ControlOf(h: Header, first: bool, more: bool)
    ensures Control(h, first, more) == if first then Join(Fields(h) + [Flag(more)], COMMA) else Join([Flag(more)], COMMA)
  {
    assert [] + [Flag(more)] == [Flag(more)];
  }

  lemma Written(before: Bytes, control: Bytes, payload: Bytes)
    ensures before + Ascii("\U{1B}_G") + control + [SEMICOLON] + payload + [ESC, BACKSLASH] == before + Command(control, payload)
  {
  }

  // --------------------------------------------------------------- receiving

  datatype Read = Read(control: Bytes, payload: Bytes, rest: Bytes)

  /** Reads one command off a stream: control data up to the first semicolon, payload up to the next ESC, then its terminator. */
  function ReadCommand(b: Bytes): Option<Read> {
    var intro := Ascii("\U{1B}_G");
    if !(intro <= b) then None
    else
      var b1 := b[|intro|..];
      var i := IndexOf(b1, 0x3B);
      if i == |b1| then None
      else
        var b2 := b1[i + 1..];
        var j := IndexOf(b2, 0x1B);
        if j + 1 >= |b2| || b2[j + 1] != 0x5C then None
        else Some(Read(b1[..i], b2[..j], b2[j + 2..]))
  }

  datatype Transfer = Transfer(fields: seq<Bytes>, chunks: seq<Bytes>, rest: Bytes)

  /**
   * Receives one image as a terminal does: commands are read until one says that no more data follows. The
   * first may carry any control data, which is what the image is placed by, a later one only the flag.
   */
  function Receive(b: Bytes, first: bool): Option<Transfer>
    decreases |b|
  {
    var r := ReadCommand(b);
    if r.None? then None
    else
      var fields := Split(r.value.control, 0x2C);
      if !first && |fields| != 1 then None
      else if fields[|fields| - 1] == Ascii("m=0") then Some(Transfer(fields[..|fields| - 1], [r.value.payload], r.value.rest))
      else if fields[|fields| - 1] == Ascii("m=1") && |r.value.rest| < |b| then
        var more := Receive(r.value.rest, false);
        if more.None? then None
        else Some(Transfer(fields[..|fields| - 1], [r.value.payload] + more.value.chunks, more.value.rest))
      else None
  }

  predicate NoEsc(b: Bytes) {
    ESC !in b
  }

  lemma CommandIsRead(control: Bytes, payload: Bytes, rest: Bytes)
    requires SEMICOLON !in control && ESC !in payload
    ensures ReadCommand(Command(control, payload) + rest) == Some(Read(control, payload, rest))
  {
    hide IndexOf;
    var intro := Ascii("\U{1B}_G");
    var b := Command(control, payload) + rest;
    var b2 := payload + [ESC] + ([BACKSLASH] + rest);
    var b1 := control + [SEMICOLON] + b2;
    assert b == intro + b1;
    assert b[|intro|..] == b1;
    IndexBehind(control, SEMICOLON, b2);
    assert b1[..|control|] == control && b1[|control| + 1..] == b2;
    IndexBehind(payload, ESC, [BACKSLASH] + rest);
    assert b2[..|payload|] == payload && b2[|payload| + 2..] == rest;
    hide Command, Ascii;
  }

  predicate Plain(field: Bytes) {
    COMMA !in field && SEMICOLON !in field
  }

  lemma {:induction false} JoinHasNo(fields: seq<Bytes>)
    requires forall k :: 0 <= k < |fields| ==> Plain(fields[k])
    ensures SEMICOLON !in Join(fields, COMMA)
  {
    if |fields| > 1 {
      JoinHasNo(fields[1..]);
    }
  }

  lemma FieldsArePlain(h: Header, more: bool)
    ensures forall k :: 0 <= k < |Fields(h) + [Flag(more)]| ==> Plain((Fields(h) + [Flag(more)])[k])
  {
  }

  lemma ControlIsRead(h: Header, first: bool, more: bool)
    ensures SEMICOLON !in Control(h, first, more)
    ensures Split(Control(h, first, more), COMMA) == (if first then Fields(h) else []) + [Flag(more)]
  {
    var f := (if first then Fields(h) else []) + [Flag(more)];
    FieldsArePlain(h, more);
    assert forall k :: 0 <= k < |f| ==> Plain(f[k]);
    hide Fields, Flag;
    JoinHasNo(f);
    SplitOfJoin(f, COMMA);
  }

  lemma ReceivesLast(b: Bytes, r: Read, fields: seq<Bytes>, first: bool)
    requires ReadCommand(b) == Some(r) && Split(r.control, COMMA) == fields + [Flag(false)]
    requires !first ==> fields == []
    ensures Receive(b, first) == Some(Transfer(fields, [r.payload], r.rest))
  {
    hide ReadCommand, Split;
  }

  lemma ReceivesMore(b: Bytes, r: Read, fields: seq<Bytes>, first: bool, more: Transfer)
    requires ReadCommand(b) == Some(r) && Split(r.control, COMMA) == fields + [Flag(true)]
    requires !first ==> fields == []
    requires |r.rest| < |b| && Receive(r.rest, false) == Some(more)
    ensures Receive(b, first) == Some(Transfer(fields, [r.payload] + more.chunks, more.rest))
  {
    FlagsDiffer();
    assert Flag(true) == Ascii("m=1") && Flag(false) == Ascii("m=0");
    hide ReadCommand, Split, Flag;
  }

  /** What the terminal reads back is what was sent, to the last byte. */
  lemma {:induction false} TransferIsReceived(h: Header, first: bool, chunks: seq<Bytes>, rest: Bytes)
    requires chunks != [] && forall k :: 0 <= k < |chunks| ==> NoEsc(chunks[k])
    ensures Receive(Commands(h, first, chunks) + rest, first) == Some(Transfer(if first then Fields(h) else [], chunks, rest))
    decreases |chunks|
  {
    hide *;
    var control := Control(h, first, |chunks| > 1);
    var behind := Commands(h, false, chunks[1..]) + rest;
    var fields := if first then Fields(h) else [];
    FirstIsRead(h, first, chunks, rest);
    if |chunks| > 1 {
      TransferIsReceived(h, false, chunks[1..], rest);
      ReceivesMore(Commands(h, first, chunks) + rest, Read(control, chunks[0], behind), fields, first, Transfer([], chunks[1..], rest));
      assert [chunks[0]] + chunks[1..] == chunks;
    } else {
      assert chunks == [chunks[0]];
      ReceivesLast(Commands(h, first, chunks) + rest, Read(control, chunks[0], behind), fields, first);
    }
  }

  lemma FirstIsRead(h: Header, first: bool, chunks: seq<Bytes>, rest: Bytes)
    requires chunks != [] && NoEsc(chunks[0])
    ensures var b, behind := Commands(h, first, chunks) + rest, Commands(h, false, chunks[1..]) + rest;
      && |behind| < |b|
      && ReadCommand(b) == Some(Read(Control(h, first, |chunks| > 1), chunks[0], behind))
    ensures Split(Control(h, first, |chunks| > 1), COMMA) == (if first then Fields(h) else []) + [Flag(|chunks| > 1)]
    ensures |chunks| == 1 ==> Commands(h, false, chunks[1..]) + rest == rest
  {
    var control := Control(h, first, |chunks| > 1);
    var behind := Commands(h, false, chunks[1..]) + rest;
    ControlIsRead(h, first, |chunks| > 1);
    assert Commands(h, first, chunks) + rest == Command(control, chunks[0]) + behind;
    CommandIsRead(control, chunks[0], behind);
    CommandIsSome(control, chunks[0]);
    hide ReadCommand, Command, Control, Split, Fields, Flag;
  }

  lemma FlagsDiffer()
    ensures Flag(true) != Flag(false)
  {
    assert Flag(true)[2] != Flag(false)[2];
  }

  lemma CommandIsSome(control: Bytes, payload: Bytes)
    ensures |Command(control, payload)| > 0
  {
  }

  // ------------------------------------------------------------------ chunks

  lemma {:induction false} ChunksAreExact(s: Bytes, size: nat)
    requires size > 0
    ensures var chunks := Chunks(s, size);
      && chunks != [] && Concat(chunks) == s
      && (forall k :: 0 <= k < |chunks| ==> |chunks[k]| <= size)
      && (forall k :: 0 <= k < |chunks| - 1 ==> |chunks[k]| == size)
      && (s != [] ==> chunks[|chunks| - 1] != [])
    decreases |s|
  {
    var chunks := Chunks(s, size);
    if |s| > size {
      ChunksAreExact(s[size..], size);
      var rest := Chunks(s[size..], size);
      assert chunks == [s[..size]] + rest && chunks[1..] == rest;
      assert s == s[..size] + s[size..];
    } else {
      assert chunks[1..] == [] && s + [] == s;
    }
  }

  lemma {:induction false} PartsHaveNoEsc(parts: seq<Bytes>)
    requires NoEsc(Concat(parts))
    ensures forall k :: 0 <= k < |parts| ==> NoEsc(parts[k])
  {
    if parts != [] {
      assert forall c :: c in parts[0] ==> c in Concat(parts);
      assert forall c :: c in Concat(parts[1..]) ==> c in Concat(parts);
      PartsHaveNoEsc(parts[1..]);
    }
  }

  lemma EncodedHasNoEsc(pixels: Bytes)
    ensures NoEsc(Base64.Encoded(pixels))
  {
    forall k | 0 <= k < |Base64.Encoded(pixels)|
      ensures Base64.Encoded(pixels)[k] != ESC
    {
      Base64.EncodedSymbols(pixels, k);
    }
  }

  /**
   * What a terminal understands from the control data: display this image of 32-bit pixels, so wide and high, under
   * this id, over so many columns and rows, and answer nothing.
   */
  ghost predicate Asks(fields: seq<Bytes>, width: nat, height: nat, id: nat, cols: nat, rows: nat) {
    && ValueOf(fields, Ascii("a")) == Some(Ascii("T"))
    && NumberOf(fields, Ascii("f")) == Some(32)
    && NumberOf(fields, Ascii("s")) == Some(width) && NumberOf(fields, Ascii("v")) == Some(height)
    && NumberOf(fields, Ascii("i")) == Some(id)
    && NumberOf(fields, Ascii("c")) == Some(cols) && NumberOf(fields, Ascii("r")) == Some(rows)
    && NumberOf(fields, Ascii("q")) == Some(2)
  }

  lemma Spelled(key: string, value: Bytes)
    requires |key| == 1
    ensures Ascii(key + "=") + value == Field(Ascii(key), value)
  {
  }

  function Keys(): seq<Bytes> {
    [Ascii("a"), Ascii("f"), Ascii("s"), Ascii("v"), Ascii("i"), Ascii("c"), Ascii("r"), Ascii("q")]
  }

  function Values(h: Header): seq<Bytes> {
    [Ascii("T"), Decimal(32), Decimal(h.width), Decimal(h.height), Decimal(h.id), Decimal(h.cols), Decimal(h.rows), Decimal(2)]
  }

  lemma KeysDiffer()
    ensures forall i :: 0 <= i < 8 ==> |Keys()[i]| == 1 && EQUALS !in Keys()[i]
    ensures forall i, j :: 0 <= i < j < 8 ==> Keys()[i] != Keys()[j]
  {
    var letters := [0x61, 0x66, 0x73, 0x76, 0x69, 0x63, 0x72, 0x71];
    assert forall i :: 0 <= i < 8 ==> Keys()[i] == [letters[i]];
  }

  lemma FieldsAre(h: Header)
    ensures |Fields(h)| == 8 && forall i :: 0 <= i < 8 ==> Fields(h)[i] == Field(Keys()[i], Values(h)[i])
  {
    SmallNumbers();
    Spelled("s", Decimal(h.width));
    Spelled("v", Decimal(h.height));
    Spelled("i", Decimal(h.id));
    Spelled("c", Decimal(h.cols));
    Spelled("r", Decimal(h.rows));
    assert Ascii("a=T") == Field(Ascii("a"), Ascii("T"));
    hide Decimal, Ascii, Field;
  }

  lemma SmallNumbers()
    ensures Ascii("f=32") == Field(Ascii("f"), Decimal(32)) && Ascii("q=2") == Field(Ascii("q"), Decimal(2))
  {
    assert Decimal(3) == [0x33] && Decimal(32) == [0x33, 0x32] && Decimal(2) == [0x32];
  }

  /** Each number is sent under the key that a terminal reads it by. */
  lemma HeaderIsUnderstood(h: Header)
    ensures Asks(Fields(h), h.width, h.height, h.id, h.cols, h.rows)
  {
    var keys, values := Keys(), Values(h);
    KeysDiffer();
    FieldsAre(h);
    hide Fields, Field, ValueOf, NumberOf, Decimal, Ascii;
    FieldsAreRead(Fields(h), keys, values, 0);
    FieldsAreRead(Fields(h), keys, values, 1);
    FieldsAreRead(Fields(h), keys, values, 2);
    FieldsAreRead(Fields(h), keys, values, 3);
    FieldsAreRead(Fields(h), keys, values, 4);
    FieldsAreRead(Fields(h), keys, values, 5);
    FieldsAreRead(Fields(h), keys, values, 6);
    FieldsAreRead(Fields(h), keys, values, 7);
    DecimalIsRead(Fields(h), keys[1], 32);
    DecimalIsRead(Fields(h), keys[2], h.width);
    DecimalIsRead(Fields(h), keys[3], h.height);
    DecimalIsRead(Fields(h), keys[4], h.id);
    DecimalIsRead(Fields(h), keys[5], h.cols);
    DecimalIsRead(Fields(h), keys[6], h.rows);
    DecimalIsRead(Fields(h), keys[7], 2);
  }

  /**
   * The round trip: from the bytes sent for an image, with anything behind them, the terminal reads back the
   * header, and chunks of at most 4096 bytes that decode to the pixels; it stops at the end of the image.
   */
  lemma ImageArrives(h: Header, pixels: Bytes, rest: Bytes)
    ensures var sent := Commands(h, true, Chunks(Base64.Encoded(pixels), CHUNK_SIZE));
      var got := Receive(sent + rest, true);
      && got.Some?
      && got.value.fields == Fields(h) && got.value.rest == rest
      && Asks(got.value.fields, h.width, h.height, h.id, h.cols, h.rows)
      && (forall k :: 0 <= k < |got.value.chunks| ==> |got.value.chunks[k]| <= 4096)
      && Base64.Decoded(Concat(got.value.chunks)) == Some(pixels)
  {
    var b64 := Base64.Encoded(pixels);
    var chunks := Chunks(b64, CHUNK_SIZE);
    ChunksAreExact(b64, CHUNK_SIZE);
    EncodedHasNoEsc(pixels);
    PartsHaveNoEsc(chunks);
    TransferIsReceived(h, true, chunks, rest);
    Base64.DecodesExactly(b64, pixels);
    HeaderIsUnderstood(h);
    hide Asks, Fields;
  }

  /** The same through tmux: the outer terminal gets the image out of the envelope. */
  lemma ImageArrivesThroughTmux(h: Header, pixels: Bytes, rest: Bytes)
    ensures var sent := Tmux.Wrapped(Commands(h, true, Chunks(Base64.Encoded(pixels), CHUNK_SIZE)));
      var o := Tmux.Unwrapped(sent + rest);
      && o.Some? && o.value.rest == rest
      && var got := Receive(o.value.payload, true);
      && got.Some? && got.value.fields == Fields(h) && got.value.rest == []
      && Asks(got.value.fields, h.width, h.height, h.id, h.cols, h.rows)
      && Base64.Decoded(Concat(got.value.chunks)) == Some(pixels)
  {
    var out := Commands(h, true, Chunks(Base64.Encoded(pixels), CHUNK_SIZE));
    Tmux.UnwrapsExactly(Tmux.Wrapped(out) + rest, out, rest);
    ImageArrives(h, pixels, []);
    assert out + [] == out;
    hide Asks, Fields;
  }

  /** The header can be read off the fields: different headers are sent as different control data. */
  lemma FieldsTellHeader(h: Header, h': Header)
    requires Fields(h) == Fields(h')
    ensures h == h'
  {
    SameNumber(Ascii("s="), h.width, h'.width);
    SameNumber(Ascii("v="), h.height, h'.height);
    SameNumber(Ascii("i="), h.id, h'.id);
    SameNumber(Ascii("c="), h.cols, h'.cols);
    SameNumber(Ascii("r="), h.rows, h'.rows);
    assert forall k :: 0 <= k < 8 ==> Fields(h)[k] == Fields(h')[k];
    assert Fields(h)[2] == Fields(h')[2] && Fields(h)[3] == Fields(h')[3] && Fields(h)[4] == Fields(h')[4];
    assert Fields(h)[5] == Fields(h')[5] && Fields(h)[6] == Fields(h')[6];
  }

  lemma SameNumber(key: Bytes, m: nat, n: nat)
    ensures key + Decimal(m) == key + Decimal(n) ==> m == n
  {
    NumberOfDecimal(m);
    NumberOfDecimal(n);
    if key + Decimal(m) == key + Decimal(n) {
      assert Decimal(m) == (key + Decimal(m))[|key|..] == (key + Decimal(n))[|key|..] == Decimal(n);
    }
  }
}
