/** tmux's passthrough envelope. */
module Tmux {
  import opened Options
  import opened Utf8
  import opened Wire

  function Intro(): Bytes {
    [ESC, 0x50] + Ascii("tmux;")
  }

  /** Every ESC doubled. */
  function Doubled(payload: Bytes): Bytes {
    if payload == [] then []
    else (if payload[0] == ESC then [ESC, ESC] else [payload[0]]) + Doubled(payload[1..])
  }

  function Wrapped(payload: Bytes): Bytes {
    Intro() + Doubled(payload) + [ESC, BACKSLASH]
  }

  method Passthrough(payload: Bytes) returns (out: Bytes)
    ensures out == Wrapped(payload)
  {
    var escaped := Doubled(payload);
    out := [ESC, 0x50];
    out := out + Ascii("tmux;");
    out := out + escaped;
    out := out + [ESC, BACKSLASH];
  }

  datatype Opened = Opened(payload: Bytes, rest: Bytes)

  /** What tmux makes of the body: a doubled ESC is one, and ESC with a backslash ends the envelope. */
  function OpenBody(b: Bytes): Option<Opened> {
    if b == [] then None
    else if b[0] != 0x1B then Prepended(b[0], OpenBody(b[1..]))
    else if |b| < 2 then None
    else if b[1] == 0x5C then Some(Opened([], b[2..]))
    else if b[1] == 0x1B then Prepended(0x1B, OpenBody(b[2..]))
    else None
  }

  function Prepended(c: Byte, o: Option<Opened>): Option<Opened> {
    if o.None? then None else Some(Opened([c] + o.value.payload, o.value.rest))
  }

  function Unwrapped(b: Bytes): Option<Opened> {
    if [0x1B, 0x50, 0x74, 0x6D, 0x75, 0x78, 0x3B] <= b then OpenBody(b[7..]) else None
  }

  lemma {:induction false} BodyOpens(payload: Bytes, rest: Bytes)
    ensures OpenBody(Doubled(payload) + [ESC, BACKSLASH] + rest) == Some(Opened(payload, rest))
  {
    var b := Doubled(payload) + [ESC, BACKSLASH] + rest;
    if payload == [] {
      assert b[2..] == rest;
    } else {
      var tail := Doubled(payload[1..]) + [ESC, BACKSLASH] + rest;
      assert b == (if payload[0] == ESC then [ESC, ESC] else [payload[0]]) + tail;
      BodyOpens(payload[1..], rest);
      assert payload == [payload[0]] + payload[1..];
      if payload[0] == ESC {
        assert b[2..] == tail;
      } else {
        assert b[1..] == tail;
      }
    }
  }

  lemma {:induction false} OpenedBody(b: Bytes)
    requires OpenBody(b).Some?
    ensures b == Doubled(OpenBody(b).value.payload) + [ESC, BACKSLASH] + OpenBody(b).value.rest
    decreases |b|
  {
    if b[0] != ESC {
      OpenedBody(b[1..]);
      var o := OpenBody(b[1..]).value;
      assert ([b[0]] + o.payload)[1..] == o.payload;
    } else if b[1] == ESC {
      OpenedBody(b[2..]);
      var o := OpenBody(b[2..]).value;
      assert ([ESC] + o.payload)[1..] == o.payload;
    }
  }

  /** The envelope gives back exactly the payload and stops at its own end: tmux reads it off a stream iff it was written there. */
  lemma UnwrapsExactly(b: Bytes, payload: Bytes, rest: Bytes)
    ensures Unwrapped(b) == Some(Opened(payload, rest)) <==> b == Wrapped(payload) + rest
  {
    var intro := Intro();
    assert intro == [0x1B, 0x50, 0x74, 0x6D, 0x75, 0x78, 0x3B];
    if b == Wrapped(payload) + rest {
      assert b == intro + (Doubled(payload) + [ESC, BACKSLASH] + rest);
      assert b[|intro|..] == Doubled(payload) + [ESC, BACKSLASH] + rest;
      BodyOpens(payload, rest);
    }
    if Unwrapped(b).Some? {
      OpenedBody(b[|intro|..]);
      assert b == intro + b[|intro|..];
    }
  }
}
