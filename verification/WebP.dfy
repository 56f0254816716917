/** Counts the frames of a WebP by its RIFF chunk lengths alone, and what that count means for a well-formed file. */
module WebP {
  import opened Options
  import opened Utf8
  import opened Wire
  import opened Numbers

  const WORD: int := 0x1_0000_0000

  datatype Count = Frames(n: int) | Malformed

  // ----------------------------------------------------------------- scanning

  /** Four bytes as a little-endian number. */
  function Little(b: Bytes): (n: nat)
    requires |b| == 4
    ensures n < WORD
  {
    var b0: int, b1: int, b2: int, b3: int := b[0], b[1], b[2], b[3];
    b0 + b1 * 0x100 + b2 * 0x1_0000 + b3 * 0x100_0000
  }

  /** Chunk sizes are rounded up to even. */
  function Padded(size: nat): nat {
    size + size % 2
  }

  function Settled(frames: int): Count {
    if frames == 0 then Frames(1) else Frames(frames)
  }

  /** Counts from chunk to chunk as long as the `room` bytes left of the file leave space for a chunk header. */
  function CountFrom(b: Bytes, room: int, frames: int, limit: int): Count
    decreases |b|
  {
    if room < 8 || |b| < 8 then Settled(frames)
    else if 8 + Little(b[4..8]) > |b| then Malformed
    else
      var found := if b[..4] == Ascii("ANMF") then frames + 1 else frames;
      var width := 8 + Padded(Little(b[4..8]));
      if found > frames && found >= limit then Frames(found)
      else CountFrom(Dropped(b, width), room - width, found, limit)
  }

  predicate IsWebP(data: Bytes) {
    |data| >= 12 && data[..4] == Ascii("RIFF") && data[8..12] == Ascii("WEBP")
  }

  /** Where the file says it ends, unless that is impossible. */
  function End(data: Bytes): (end: int)
    requires IsWebP(data)
    ensures 12 <= end <= |data|
  {
    var end := 8 + Little(data[4..8]);
    if end > |data| || end < 12 then |data| else end
  }

  function Counted(data: Bytes, limit: int): Count {
    if !IsWebP(data) then Malformed else CountFrom(data[12..], End(data) - 12, 0, limit)
  }

  lemma Begins(data: Bytes, limit: int)
    ensures IsWebP(data) <==> |data| >= 12 && data[..4] == Ascii("RIFF") && data[8..12] == Ascii("WEBP")
    ensures IsWebP(data) ==> var end := 8 + Little(data[4..8]); End(data) == if end > |data| || end < 12 then |data| else end
    ensures Counted(data, limit) == if IsWebP(data) then CountFrom(Dropped(data, 12), End(data) - 12, 0, limit) else Malformed
  {
    hide CountFrom, Ascii, Little;
  }

  /** What one chunk header decides. */
  lemma AtHeader(b: Bytes, room: int, frames: int, limit: int)
    requires room >= 8 && |b| >= 8
    ensures var size, rest := Little(b[4..8]), CountFrom(b, room, frames, limit);
      && (8 + size > |b| ==> rest == Malformed)
      && (8 + size <= |b| ==>
        var found := if b[..4] == Ascii("ANMF") then frames + 1 else frames;
        var width := 8 + Padded(size);
        rest == if found > frames && found >= limit then Frames(found) else CountFrom(Dropped(b, width), room - width, found, limit))
  {
    hide Little, Ascii, Dropped, Padded;
  }

  lemma AtChunk(data: Bytes, off: nat, end: int, frames: int, limit: int)
    requires off + 8 <= end <= |data|
    ensures var size, rest := Little(data[off + 4..off + 8]), CountFrom(Dropped(data, off), end - off, frames, limit);
      && (off + 8 + size > |data| ==> rest == Malformed)
      && (off + 8 + size <= |data| ==>
        var found := if data[off..off + 4] == Ascii("ANMF") then frames + 1 else frames;
        var next := off + 8 + Padded(size);
        rest == if found > frames && found >= limit then Frames(found) else CountFrom(Dropped(data, next), end - next, found, limit))
  {
    hide *;
    var b := Dropped(data, off);
    HeaderAt(data, off);
    AtHeader(b, end - off, frames, limit);
    NextAt(data, off, 8 + Padded(Little(b[4..8])));
  }

  lemma AtEnd(b: Bytes, room: int, frames: int, limit: int)
    requires room < 8 || |b| < 8
    ensures CountFrom(b, room, frames, limit) == if frames == 0 then Frames(1) else Frames(frames)
  {
  }

  lemma HeaderAt(data: Bytes, off: nat)
    requires off + 8 <= |data|
    ensures |Dropped(data, off)| == |data| - off
    ensures Dropped(data, off)[..4] == data[off..off + 4] && Dropped(data, off)[4..8] == data[off + 4..off + 8]
  {
  }

  lemma NextAt(data: Bytes, off: nat, n: nat)
    requires off <= |data|
    ensures Dropped(Dropped(data, off), n) == Dropped(data, off + n)
    ensures off + n <= |data| ==> |Dropped(data, off + n)| == |data| - off - n
  {
  }

  lemma PaddedIsEven(size: nat)
    ensures Padded(size) == if size % 2 == 1 then size + 1 else size
  {
  }

  method CountFrames(data: Bytes, frameLimit: int) returns (r: Count)
    ensures r == Counted(data, frameLimit)
  {
    hide Counted, CountFrom, IsWebP, End, Little, Ascii, Padded, Dropped;
    Begins(data, frameLimit);
    if |data| < 12 || data[..4] != Ascii("RIFF") || data[8..12] != Ascii("WEBP") {
      return Malformed;
    }
    var riffSize := Little(data[4..8]);
    var end := 8 + riffSize;
    if end > |data| || end < 12 {
      end := |data|;
    }
    var frames := 0;
    var off := 12;
    while off + 8 <= end
      invariant 12 <= end <= |data| && off >= 12
      invariant Counted(data, frameLimit) == CountFrom(Dropped(data, off), end - off, frames, frameLimit)
      decreases |data| - off
    {
      AtChunk(data, off, end, frames, frameLimit);
      var fourCC := data[off..off + 4];
      var size := Little(data[off + 4..off + 8]);
      if off + 8 + size > |data| {
        return Malformed;
      }
      if fourCC == Ascii("ANMF") {
        frames := frames + 1;
        if frames >= frameLimit {
          return Frames(frames);
        }
      }
      PaddedIsEven(size);
      off := off + 8 + size;
      if size % 2 == 1 {
        off := off + 1;
      }
    }
    AtEnd(Dropped(data, off), end - off, frames, frameLimit);
    return if frames == 0 then Frames(1) else Frames(frames);
  }

  // ------------------------------------------------------ well-formed files

  /** A chunk of RFC 9649, section 2.3: a four-character code and a payload of less than 2^32 bytes. */
  datatype Chunk = Chunk(fourCC: Bytes, payload: Bytes) {
    predicate Valid() {
      |fourCC| == 4 && |payload| < WORD
    }
  }

  function LittleBytes(n: nat): (b: Bytes)
    requires n < WORD
    ensures |b| == 4
  {
    [n % 0x100, n / 0x100 % 0x100, n / 0x1_0000 % 0x100, n / 0x100_0000]
  }

  lemma LittleBack(n: nat)
    requires n < WORD
    ensures Little(LittleBytes(n)) == n
  {
    assert n / 0x1_0000 == n / 0x100 / 0x100 && n / 0x100_0000 == n / 0x100 / 0x100 / 0x100;
  }

  /** The chunk with a zero byte behind an odd payload. */
  function Serialized(c: Chunk): Bytes
    requires c.Valid()
  {
    c.fourCC + LittleBytes(|c.payload|) + c.payload + if |c.payload| % 2 == 1 then [0] else []
  }

  ghost predicate AllValid(chunks: seq<Chunk>) {
    forall k :: 0 <= k < |chunks| ==> chunks[k].Valid()
  }

  function AllSerialized(chunks: seq<Chunk>): Bytes
    requires AllValid(chunks)
  {
    if chunks == [] then [] else Serialized(chunks[0]) + AllSerialized(chunks[1..])
  }

  /** The file header of section 2.4, whose size counts everything behind itself, and the chunks. */
  function Written(chunks: seq<Chunk>): Bytes
    requires AllValid(chunks) && 4 + |AllSerialized(chunks)| < WORD
  {
    Ascii("RIFF") + LittleBytes(4 + |AllSerialized(chunks)|) + Ascii("WEBP") + AllSerialized(chunks)
  }

  function Animated(chunks: seq<Chunk>): nat {
    if chunks == [] then 0 else (if IsFrame(chunks[0]) then 1 else 0) + Animated(chunks[1..])
  }

  lemma ChunkIsRead(c: Chunk, rest: Bytes)
    requires c.Valid()
    ensures var b := Serialized(c) + rest;
      && |Serialized(c)| == 8 + Padded(|c.payload|)
      && b[..4] == c.fourCC && Little(b[4..8]) == |c.payload| && 8 + |c.payload| <= |b|
      && Dropped(b, 8 + Padded(|c.payload|)) == rest
  {
    var b := Serialized(c) + rest;
    assert b[4..8] == LittleBytes(|c.payload|);
    LittleBack(|c.payload|);
    hide LittleBytes, Little;
  }

  predicate IsFrame(c: Chunk) {
    c.fourCC == Ascii("ANMF")
  }

  lemma FrameIsRead(c: Chunk, rest: Bytes)
    requires c.Valid()
    ensures IsFrame(c) <==> (Serialized(c) + rest)[..4] == Ascii("ANMF")
  {
    ChunkIsRead(c, rest);
    hide Serialized, Ascii;
  }

  lemma ChunkIsCounted(c: Chunk, rest: Bytes, room: int, frames: int, limit: int)
    requires c.Valid() && |Serialized(c)| <= room
    ensures CountFrom(Serialized(c) + rest, room, frames, limit) ==
      if IsFrame(c) && frames + 1 >= limit then Frames(frames + 1)
      else CountFrom(rest, room - |Serialized(c)|, frames + (if IsFrame(c) then 1 else 0), limit)
  {
    hide Serialized, Ascii, Little, CountFrom, Dropped, Padded;
    var b := Serialized(c) + rest;
    ChunkIsRead(c, rest);
    FrameIsRead(c, rest);
    hide *;
    AtHeader(b, room, frames, limit);
  }

  lemma FirstChunk(chunks: seq<Chunk>, rest: Bytes)
    requires AllValid(chunks) && chunks != []
    ensures chunks[0].Valid() && AllValid(chunks[1..])
    ensures AllSerialized(chunks) + rest == Serialized(chunks[0]) + (AllSerialized(chunks[1..]) + rest)
    ensures |AllSerialized(chunks)| == |Serialized(chunks[0])| + |AllSerialized(chunks[1..])|
    ensures Animated(chunks) == (if IsFrame(chunks[0]) then 1 else 0) + Animated(chunks[1..])
  {
    hide Serialized, Ascii;
  }

  lemma NoChunks()
    ensures AllSerialized([]) == [] && Animated([]) == 0
  {
  }

  lemma {:induction false} ChunksAreCounted(chunks: seq<Chunk>, rest: Bytes, frames: nat, limit: int)
    requires AllValid(chunks) && (frames == 0 || frames < limit)
    ensures CountFrom(AllSerialized(chunks) + rest, |AllSerialized(chunks)|, frames, limit) == Expected(frames + Animated(chunks), limit)
    decreases |chunks|
  {
    hide AllValid, AllSerialized, Serialized, Animated, CountFrom, IsFrame;
    var b, room := AllSerialized(chunks) + rest, |AllSerialized(chunks)|;
    if chunks == [] {
      NoChunks();
      AtEnd(b, room, frames, limit);
    } else {
      FirstChunk(chunks, rest);
      var tail := AllSerialized(chunks[1..]) + rest;
      ChunkIsCounted(chunks[0], tail, room, frames, limit);
      var found := frames + (if IsFrame(chunks[0]) then 1 else 0);
      if found == frames || found < limit {
        ChunksAreCounted(chunks[1..], rest, found, limit);
      }
    }
  }

  /** The count of a file with that many animation frames. */
  function Expected(frames: nat, limit: int): Count {
    if frames == 0 then Frames(1) else Frames(Min(frames, Max(limit, 1)))
  }

  /**
   * A well-formed file, whatever is appended to it, counts as its animation frames up to the limit, and as
   * one frame if it has none. So a file that is found malformed is no WebP.
   */
  lemma WellFormedIsCounted(chunks: seq<Chunk>, rest: Bytes, limit: int)
    requires AllValid(chunks) && 4 + |AllSerialized(chunks)| < WORD
    ensures Counted(Written(chunks) + rest, limit) ==
      if Animated(chunks) == 0 then Frames(1) else Frames(Min(Animated(chunks), Max(limit, 1)))
    ensures limit >= 1 ==> Counted(Written(chunks) + rest, limit) == Frames(Max(1, Min(Animated(chunks), limit)))
  {
    hide AllValid, AllSerialized, Written, CountFrom, Animated, IsWebP, End, Ascii, Little, LittleBytes, Counted, Dropped;
    WrittenIs(chunks);
    HeaderIsRead(AllSerialized(chunks), rest);
    Begins(Written(chunks) + rest, limit);
    ChunksAreCounted(chunks, rest, 0, limit);
  }

  lemma WrittenIs(chunks: seq<Chunk>)
    requires AllValid(chunks) && 4 + |AllSerialized(chunks)| < WORD
    ensures Written(chunks) == Ascii("RIFF") + LittleBytes(4 + |AllSerialized(chunks)|) + Ascii("WEBP") + AllSerialized(chunks)
  {
  }

  lemma HeaderIsRead(body: Bytes, rest: Bytes)
    requires 4 + |body| < WORD
    ensures var data := Ascii("RIFF") + LittleBytes(4 + |body|) + Ascii("WEBP") + body + rest;
      IsWebP(data) && End(data) == 12 + |body| && Dropped(data, 12) == body + rest
  {
    var data := Ascii("RIFF") + LittleBytes(4 + |body|) + Ascii("WEBP") + body + rest;
    assert data[..4] == Ascii("RIFF") && data[4..8] == LittleBytes(4 + |body|) && data[8..12] == Ascii("WEBP");
    LittleBack(4 + |body|);
  }

  /** For any bytes at all, the count is at least one and never beyond a positive limit. */
  lemma {:induction false} NeverBeyondLimit(b: Bytes, room: int, frames: nat, limit: int)
    requires frames == 0 || frames < limit
    ensures CountFrom(b, room, frames, limit).Frames? ==> 1 <= CountFrom(b, room, frames, limit).n <= Max(1, limit)
    decreases |b|
  {
    hide CountFrom, Little, Ascii, Dropped, Padded;
    if room < 8 || |b| < 8 {
      AtEnd(b, room, frames, limit);
    } else {
      var width := 8 + Padded(Little(b[4..8]));
      AtHeader(b, room, frames, limit);
      DroppedIsShorter(b, width);
      var found := if b[..4] == Ascii("ANMF") then frames + 1 else frames;
      if !(found > frames && found >= limit) {
        NeverBeyondLimit(Dropped(b, width), room - width, found, limit);
      }
    }
  }

  lemma DroppedIsShorter(b: Bytes, n: nat)
    requires n > 0 && b != []
    ensures |Dropped(b, n)| < |b|
  {
  }
}
