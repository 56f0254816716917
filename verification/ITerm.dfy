/** iTerm2's inline images: one OSC sequence for a small file, a header, parts and an end mark for a large one. */
module ITerm {
  import opened Options
  import opened Utf8
  import opened Wire
  import Base64
  import Tmux

  const CHUNK_SIZE: nat := 200 * 1024
  const MULTIPART_THRESHOLD: nat := 0x10_0000

  datatype Size = Size(bytes: nat, cols: nat, rows: nat)

  // ----------------------------------------------------------------- sending

  function Osc(body: Bytes): Bytes {
    Ascii("\U{1B}]") + body + [BEL]
  }

  function Arguments(z: Size): seq<Bytes> {
    [Ascii("inline=1"), Ascii("size=") + Decimal(z.bytes), Ascii("width=") + Decimal(z.cols),
     Ascii("height=") + Decimal(z.rows), Ascii("preserveAspectRatio=1")]
  }

  function Inline(raw: Bytes, cols: nat, rows: nat): Bytes {
    Osc(Ascii("1337;File=") + Join(Arguments(Size(|raw|, cols, rows)), SEMICOLON) + [COLON] + Base64.Encoded(raw))
  }

  function Parts(raw: Bytes): Bytes {
    if raw == [] then []
    else if |raw| <= CHUNK_SIZE then Part(raw)
    else Part(raw[..CHUNK_SIZE]) + Parts(raw[CHUNK_SIZE..])
  }

  function Part(piece: Bytes): Bytes {
    Osc(Ascii("1337;FilePart=") + Base64.Encoded(piece))
  }

  function HeaderOf(z: Size): Bytes {
    Osc(Ascii("1337;MultipartFile=") + Join(Arguments(z), SEMICOLON))
  }

  function End(): Bytes {
    Osc(Ascii("1337;FileEnd"))
  }

  function Multipart(raw: Bytes, cols: nat, rows: nat): Bytes {
    HeaderOf(Size(|raw|, cols, rows)) + Parts(raw) + End()
  }

  method BuildMultipart(raw: Bytes, cols: nat, rows: nat) returns (out: Bytes)
    ensures out == Multipart(raw, cols, rows)
  {
    hide HeaderOf, End, Part;
    out := HeaderOf(Size(|raw|, cols, rows));
    ghost var header := out;
    var i := 0;
    while i < |raw|
      invariant 0 <= i && (i <= |raw| || i - CHUNK_SIZE < |raw| < i)
      invariant out + Parts(if i <= |raw| then raw[i..] else []) == header + Parts(raw)
    {
      var end := i + CHUNK_SIZE;
      if end > |raw| {
        end := |raw|;
      }
      NextPart(raw, i);
      ghost var before := out;
      out := out + Part(raw[i..end]);
      i := i + CHUNK_SIZE;
    }
    out := out + End();
  }

  lemma NextPart(raw: Bytes, i: nat)
    requires i < |raw|
    ensures var end := if i + CHUNK_SIZE > |raw| then |raw| else i + CHUNK_SIZE;
      Parts(raw[i..]) == Part(raw[i..end]) + Parts(if i + CHUNK_SIZE <= |raw| then raw[i + CHUNK_SIZE..] else [])
  {
    var left := raw[i..];
    hide Part;
    if |left| <= CHUNK_SIZE {
      assert raw[i..|raw|] == left && Part(left) + [] == Part(left);
    } else {
      assert left[..CHUNK_SIZE] == raw[i..i + CHUNK_SIZE] && left[CHUNK_SIZE..] == raw[i + CHUNK_SIZE..];
    }
  }

  /** What is written for a file: the small form up to a threshold, enveloped inside tmux. */
  function Sent(raw: Bytes, cols: nat, rows: nat): Bytes {
    if |raw| > MULTIPART_THRESHOLD then Multipart(raw, cols, rows) else Inline(raw, cols, rows)
  }

  /** Up to a mebibyte a file goes in one sequence, above it in parts of 200 KiB, each encoded on its own, and a rest. */
  lemma FormExactly(raw: Bytes, cols: nat, rows: nat)
    ensures |raw| <= 1_048_576 ==> Sent(raw, cols, rows) == Inline(raw, cols, rows)
    ensures |raw| > 1_048_576 ==> Sent(raw, cols, rows) == HeaderOf(Size(|raw|, cols, rows)) + Parts(raw) + End()
    ensures |raw| > 204_800 ==> Parts(raw) == Part(raw[..204_800]) + Parts(raw[204_800..])
    ensures 0 < |raw| <= 204_800 ==> Parts(raw) == Part(raw)
  {
    hide Inline, HeaderOf, Part, End;
  }

  // --------------------------------------------------------------- receiving

  datatype Read = Read(body: Bytes, rest: Bytes)

  function ReadOsc(b: Bytes): Option<Read> {
    var intro := Ascii("\U{1B}]");
    if !(intro <= b) then None
    else
      var b1 := b[|intro|..];
      var i := IndexOf(b1, 0x07);
      if i == |b1| then None else Some(Read(b1[..i], b1[i + 1..]))
  }

  datatype File = File(arguments: seq<Bytes>, content: Bytes, rest: Bytes)

  /** Collects parts, each decoded on its own, until the end mark. */
  function ReceiveParts(b: Bytes): Option<Read>
    decreases |b|
  {
    var r := ReadOsc(b);
    if r.None? then None
    else if r.value.body == Ascii("1337;FileEnd") then Some(Read([], r.value.rest))
    else if Ascii("1337;FilePart=") <= r.value.body && |r.value.rest| < |b| then
      var piece := Base64.Decoded(r.value.body[|Ascii("1337;FilePart=")|..]);
      var more := ReceiveParts(r.value.rest);
      if piece.None? || more.None? then None else Some(Read(piece.value + more.value.body, more.value.rest))
    else None
  }

  function ReceiveInline(body: Bytes, rest: Bytes): Option<File> {
    var i := IndexOf(body, 0x3A);
    if i == |body| then None
    else
      var content := Base64.Decoded(body[i + 1..]);
      if content.None? then None else Some(File(Split(body[..i], 0x3B), content.value, rest))
  }

  function ReceiveMultipart(body: Bytes, rest: Bytes): Option<File> {
    var parts := ReceiveParts(rest);
    if parts.None? then None else Some(File(Split(body, 0x3B), parts.value.body, parts.value.rest))
  }

  /** Receives one file in either form, as a terminal does. */
  function Receive(b: Bytes): Option<File> {
    var small, large := Ascii("1337;File="), Ascii("1337;MultipartFile=");
    var r := ReadOsc(b);
    if r.None? then None
    else if small <= r.value.body then ReceiveInline(r.value.body[|small|..], r.value.rest)
    else if large <= r.value.body then ReceiveMultipart(r.value.body[|large|..], r.value.rest)
    else None
  }

  lemma OscIsRead(body: Bytes, rest: Bytes)
    requires BEL !in body
    ensures ReadOsc(Osc(body) + rest) == Some(Read(body, rest)) && |rest| < |Osc(body) + rest|
  {
    var b := Osc(body) + rest;
    var b1 := body + [BEL] + rest;
    assert b == Ascii("\U{1B}]") + b1;
    assert b[2..] == b1;
    IndexBehind(body, BEL, rest);
    assert b1[..|body|] == body && b1[|body| + 1..] == rest;
  }

  lemma EncodedIsClear(raw: Bytes)
    ensures BEL !in Base64.Encoded(raw)
  {
    forall k | 0 <= k < |Base64.Encoded(raw)|
      ensures Base64.Encoded(raw)[k] != BEL
    {
      Base64.EncodedSymbols(raw, k);
    }
  }

  predicate Plain(field: Bytes) {
    SEMICOLON !in field && COLON !in field && BEL !in field
  }

  lemma {:induction false} JoinIsClear(fields: seq<Bytes>)
    requires forall k :: 0 <= k < |fields| ==> Plain(fields[k])
    ensures COLON !in Join(fields, SEMICOLON) && BEL !in Join(fields, SEMICOLON)
  {
    if |fields| > 1 {
      JoinIsClear(fields[1..]);
    }
  }

  lemma ArgumentsAreRead(z: Size)
    ensures var text := Join(Arguments(z), SEMICOLON);
      COLON !in text && BEL !in text && Split(text, SEMICOLON) == Arguments(z)
  {
    ArgumentsArePlain(z);
    hide Arguments;
    JoinIsClear(Arguments(z));
    SplitOfJoin(Arguments(z), SEMICOLON);
  }

  lemma ArgumentsArePlain(z: Size)
    ensures Arguments(z) != [] && forall k :: 0 <= k < |Arguments(z)| ==> Plain(Arguments(z)[k])
  {
    PlainLiteral("inline=1");
    PlainLiteral("size=");
    PlainLiteral("width=");
    PlainLiteral("height=");
    PlainLiteral("preserveAspectRatio=1");
    hide Plain;
    PlainNumber(Ascii("size="), z.bytes);
    PlainNumber(Ascii("width="), z.cols);
    PlainNumber(Ascii("height="), z.rows);
  }

  lemma PlainLiteral(text: string)
    requires forall k :: 0 <= k < |text| ==> text[k] as int < 0x80 && text[k] !in {';', ':', '\U{7}'}
    ensures Plain(Ascii(text))
  {
    var b := Ascii(text);
    forall k | 0 <= k < |b|
      ensures b[k] !in {SEMICOLON, COLON, BEL}
    {
      assert b[k] == text[k] as int;
    }
  }

  lemma PlainNumber(key: Bytes, n: nat)
    requires Plain(key)
    ensures Plain(key + Decimal(n))
  {
  }

  lemma PartIsRead(piece: Bytes, rest: Bytes)
    ensures ReadOsc(Part(piece) + rest) == Some(Read(Ascii("1337;FilePart=") + Base64.Encoded(piece), rest))
    ensures |rest| < |Part(piece) + rest|
    ensures (Ascii("1337;FilePart=") + Base64.Encoded(piece))[14..] == Base64.Encoded(piece)
    ensures Ascii("1337;FilePart=") + Base64.Encoded(piece) != Ascii("1337;FileEnd")
  {
    EncodedIsClear(piece);
    OscIsRead(Ascii("1337;FilePart=") + Base64.Encoded(piece), rest);
  }

  lemma PartIsReceived(piece: Bytes, rest: Bytes, more: Read)
    requires ReceiveParts(rest) == Some(more)
    ensures ReceiveParts(Part(piece) + rest) == Some(Read(piece + more.body, more.rest))
  {
    PartIsRead(piece, rest);
    Base64.DecodesExactly(Base64.Encoded(piece), piece);
    hide ReadOsc, Part;
  }

  lemma EndIsReceived(rest: Bytes)
    ensures ReceiveParts(End() + rest) == Some(Read([], rest))
  {
    OscIsRead(Ascii("1337;FileEnd"), rest);
  }

  lemma {:induction false} PartsAreReceived(raw: Bytes, rest: Bytes)
    ensures ReceiveParts(Parts(raw) + End() + rest) == Some(Read(raw, rest))
    decreases |raw|
  {
    hide Part, End, ReceiveParts;
    EndIsReceived(rest);
    if raw == [] {
      assert Parts(raw) + End() + rest == End() + rest;
    } else if |raw| <= CHUNK_SIZE {
      PartIsReceived(raw, End() + rest, Read([], rest));
      assert Parts(raw) + End() + rest == Part(raw) + (End() + rest);
      assert raw + [] == raw;
    } else {
      var head, tail := raw[..CHUNK_SIZE], raw[CHUNK_SIZE..];
      PartsAreReceived(tail, rest);
      PartIsReceived(head, Parts(tail) + End() + rest, Read(tail, rest));
      assert Parts(raw) + End() + rest == Part(head) + (Parts(tail) + End() + rest);
      assert head + tail == raw;
    }
  }

  lemma ReadsMultipart(b: Bytes, text: Bytes, r: Read, parts: Read)
    requires r.body == Ascii("1337;MultipartFile=") + text && ReadOsc(b) == Some(r)
    requires ReceiveParts(r.rest) == Some(parts)
    ensures Receive(b) == Some(File(Split(text, SEMICOLON), parts.body, parts.rest))
  {
    hide ReadOsc, ReceiveParts, ReceiveInline, Split, Ascii;
    MultipartHeader(text);
  }

  lemma MultipartHeader(text: Bytes)
    ensures var large := Ascii("1337;MultipartFile=");
      large <= large + text && (large + text)[|large|..] == text && !(Ascii("1337;File=") <= large + text)
  {
    var large, small := Ascii("1337;MultipartFile="), Ascii("1337;File=");
    assert (large + text)[5] == large[5] == 0x4D && small[5] == 0x46;
  }

  lemma MultipartArrives(raw: Bytes, cols: nat, rows: nat, rest: Bytes)
    ensures Receive(Multipart(raw, cols, rows) + rest) == Some(File(Arguments(Size(|raw|, cols, rows)), raw, rest))
  {
    var z := Size(|raw|, cols, rows);
    var text := Join(Arguments(z), SEMICOLON);
    var body := Ascii("1337;MultipartFile=") + text;
    var behind := Parts(raw) + End() + rest;
    ArgumentsAreRead(z);
    PartsAreReceived(raw, rest);
    HeaderIsClear(text);
    OscIsRead(body, behind);
    SentMultipart(raw, cols, rows, rest);
    hide *;
    ReadsMultipart(Osc(body) + behind, text, Read(body, behind), Read(raw, rest));
  }

  lemma HeaderIsClear(text: Bytes)
    requires BEL !in text
    ensures BEL !in Ascii("1337;MultipartFile=") + text
  {
  }

  lemma SentMultipart(raw: Bytes, cols: nat, rows: nat, rest: Bytes)
    ensures Multipart(raw, cols, rows) + rest
      == Osc(Ascii("1337;MultipartFile=") + Join(Arguments(Size(|raw|, cols, rows)), SEMICOLON)) + (Parts(raw) + End() + rest)
  {
    var header := HeaderOf(Size(|raw|, cols, rows));
    assert Multipart(raw, cols, rows) == header + Parts(raw) + End();
    hide *;
    Regroup(header, Parts(raw), End(), rest);
  }

  lemma ReadsInline(b: Bytes, text: Bytes, raw: Bytes, rest: Bytes)
    requires COLON !in text
    requires ReadOsc(b) == Some(Read(Ascii("1337;File=") + text + [COLON] + Base64.Encoded(raw), rest))
    ensures Receive(b) == Some(File(Split(text, SEMICOLON), raw, rest))
  {
    InlineHeader(text, Base64.Encoded(raw));
    InlineBody(text, raw, rest);
    hide ReadOsc, Split, IndexOf, ReceiveInline, ReceiveMultipart, Ascii;
  }

  lemma InlineHeader(text: Bytes, b64: Bytes)
    ensures var small, whole := Ascii("1337;File="), Ascii("1337;File=") + text + [COLON] + b64;
      small <= whole && whole[|small|..] == text + [COLON] + b64
  {
  }

  lemma InlineBody(text: Bytes, raw: Bytes, rest: Bytes)
    requires COLON !in text
    ensures ReceiveInline(text + [COLON] + Base64.Encoded(raw), rest) == Some(File(Split(text, SEMICOLON), raw, rest))
  {
    var b64 := Base64.Encoded(raw);
    var body := text + [COLON] + b64;
    IndexBehind(text, COLON, b64);
    assert body[..|text|] == text && body[|text| + 1..] == b64;
    Base64.DecodesExactly(b64, raw);
    hide Split, IndexOf;
  }

  lemma InlineArrives(raw: Bytes, cols: nat, rows: nat, rest: Bytes)
    ensures Receive(Inline(raw, cols, rows) + rest) == Some(File(Arguments(Size(|raw|, cols, rows)), raw, rest))
  {
    var z := Size(|raw|, cols, rows);
    var text, b64 := Join(Arguments(z), SEMICOLON), Base64.Encoded(raw);
    var body := Ascii("1337;File=") + text + [COLON] + b64;
    assert Inline(raw, cols, rows) == Osc(body);
    hide *;
    ArgumentsAreRead(z);
    EncodedIsClear(raw);
    InlineIsClear(text, b64);
    OscIsRead(body, rest);
    ReadsInline(Osc(body) + rest, text, raw, rest);
  }

  lemma InlineIsClear(text: Bytes, b64: Bytes)
    requires BEL !in text && BEL !in b64
    ensures BEL !in Ascii("1337;File=") + text + [COLON] + b64
  {
  }

  /** What a terminal understands from the arguments: show it in the text, so many bytes, over so many columns and rows, undistorted. */
  ghost predicate Asks(arguments: seq<Bytes>, bytes: nat, cols: nat, rows: nat) {
    && NumberOf(arguments, Ascii("inline")) == Some(1)
    && NumberOf(arguments, Ascii("size")) == Some(bytes)
    && NumberOf(arguments, Ascii("width")) == Some(cols) && NumberOf(arguments, Ascii("height")) == Some(rows)
    && NumberOf(arguments, Ascii("preserveAspectRatio")) == Some(1)
  }

  lemma Spelled(key: string, text: string, value: Bytes)
    requires text == key + "="
    ensures Ascii(text) + value == Field(Ascii(key), value)
  {
  }

  lemma NoEquals(key: string)
    requires forall k :: 0 <= k < |key| ==> key[k] as int < 0x80 && key[k] != '='
    ensures EQUALS !in Ascii(key)
  {
  }

  lemma KeysAndValues(z: Size) returns (keys: seq<Bytes>, values: seq<Bytes>)
    ensures keys == [Ascii("inline"), Ascii("size"), Ascii("width"), Ascii("height"), Ascii("preserveAspectRatio")]
    ensures values == [Decimal(1), Decimal(z.bytes), Decimal(z.cols), Decimal(z.rows), Decimal(1)]
    ensures |Arguments(z)| == 5 && forall i :: 0 <= i < 5 ==> Arguments(z)[i] == Field(keys[i], values[i]) && EQUALS !in keys[i]
    ensures forall i, j :: 0 <= i < j < 5 ==> keys[i] != keys[j]
  {
    keys := [Ascii("inline"), Ascii("size"), Ascii("width"), Ascii("height"), Ascii("preserveAspectRatio")];
    values := [Decimal(1), Decimal(z.bytes), Decimal(z.cols), Decimal(z.rows), Decimal(1)];
    assert Decimal(1) == [0x31];
    assert Ascii("inline=1") == Field(Ascii("inline"), [0x31]);
    assert Ascii("preserveAspectRatio=1") == Field(Ascii("preserveAspectRatio"), [0x31]);
    Spelled("size", "size=", Decimal(z.bytes));
    Spelled("width", "width=", Decimal(z.cols));
    Spelled("height", "height=", Decimal(z.rows));
    NoEquals("inline");
    NoEquals("size");
    NoEquals("width");
    NoEquals("height");
    NoEquals("preserveAspectRatio");
    assert |keys[0]| == 6 && |keys[1]| == 4 && |keys[2]| == 5 && |keys[4]| == 19;
    assert keys[0][0] == 0x69 && keys[3][0] == 0x68;
    hide Decimal;
  }

  /** Each argument is sent under the key that a terminal reads it by. */
  lemma ArgumentsAreUnderstood(z: Size)
    ensures Asks(Arguments(z), z.bytes, z.cols, z.rows)
  {
    var keys, values := KeysAndValues(z);
    hide Arguments, Field, ValueOf, NumberOf, Decimal, Ascii;
    FieldsAreRead(Arguments(z), keys, values, 0);
    FieldsAreRead(Arguments(z), keys, values, 1);
    FieldsAreRead(Arguments(z), keys, values, 2);
    FieldsAreRead(Arguments(z), keys, values, 3);
    FieldsAreRead(Arguments(z), keys, values, 4);
    DecimalIsRead(Arguments(z), keys[0], 1);
    DecimalIsRead(Arguments(z), keys[1], z.bytes);
    DecimalIsRead(Arguments(z), keys[2], z.cols);
    DecimalIsRead(Arguments(z), keys[3], z.rows);
    DecimalIsRead(Arguments(z), keys[4], 1);
  }

  /** The round trip: whatever follows, the terminal gets the size, the cells and every byte of the file, in either form. */
  lemma FileArrives(raw: Bytes, cols: nat, rows: nat, rest: Bytes)
    ensures Receive(Sent(raw, cols, rows) + rest) == Some(File(Arguments(Size(|raw|, cols, rows)), raw, rest))
    ensures Asks(Receive(Sent(raw, cols, rows) + rest).value.arguments, |raw|, cols, rows)
  {
    ArgumentsAreUnderstood(Size(|raw|, cols, rows));
    if |raw| > MULTIPART_THRESHOLD {
      MultipartArrives(raw, cols, rows, rest);
    } else {
      InlineArrives(raw, cols, rows, rest);
    }
    hide Receive, Multipart, Inline, Arguments, Asks;
  }

  lemma FileArrivesThroughTmux(raw: Bytes, cols: nat, rows: nat, rest: Bytes)
    ensures var o := Tmux.Unwrapped(Tmux.Wrapped(Sent(raw, cols, rows)) + rest);
      && o.Some? && o.value.rest == rest
      && Receive(o.value.payload) == Some(File(Arguments(Size(|raw|, cols, rows)), raw, []))
      && Asks(Receive(o.value.payload).value.arguments, |raw|, cols, rows)
  {
    var sent := Sent(raw, cols, rows);
    Tmux.UnwrapsExactly(Tmux.Wrapped(sent) + rest, sent, rest);
    FileArrives(raw, cols, rows, []);
    assert sent + [] == sent;
  }
}
