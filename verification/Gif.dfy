/** Counts the frames of a GIF by its block lengths alone, and what that count means for a well-formed file. */
module Gif {
  import opened Options
  import opened Utf8
  import opened Wire
  import opened Numbers

  const EXTENSION: Byte := 0x21
  const IMAGE: Byte := 0x2C
  const TRAILER: Byte := 0x3B

  datatype Count = Frames(n: int) | Malformed

  // ----------------------------------------------------------------- scanning

  /** The bytes of the colour table announced by a packed field: bit 7 says whether there is one, bits 0-2 how large. */
  function TableSize(packed: Byte): nat {
    if packed >= 0x80 then 3 * Pow2(packed % 8 + 1) else 0
  }

  /** What follows a run of length-prefixed sub-blocks and its zero terminator. */
  function BehindSubBlocks(b: Bytes): (rest: Option<Bytes>)
    ensures rest.Some? ==> |rest.value| < |b|
  {
    if b == [] then None
    else if b[0] == 0 then Some(b[1..])
    else if 1 + b[0] > |b| then None
    else BehindSubBlocks(b[1 + b[0]..])
  }

  /** What follows the image data of a descriptor at the front of `b`. */
  function BehindImage(b: Bytes): (rest: Option<Bytes>)
    requires b != []
    ensures rest.Some? ==> |rest.value| < |b|
  {
    if |b| < 10 then None
    else
      var coded := Dropped(b, 10 + TableSize(b[9]));
      if coded == [] then None else BehindSubBlocks(coded[1..])
  }

  function CountFrom(b: Bytes, frames: int, limit: int): Count
    decreases |b|
  {
    if b == [] || frames >= limit then Frames(frames)
    else if b[0] == EXTENSION then
      if |b| < 2 || BehindSubBlocks(b[2..]).None? then Malformed
      else CountFrom(BehindSubBlocks(b[2..]).value, frames, limit)
    else if b[0] == IMAGE then
      if BehindImage(b).None? then Malformed else CountFrom(BehindImage(b).value, frames + 1, limit)
    else if b[0] == TRAILER then Frames(frames)
    else Malformed
  }

  predicate IsGif(data: Bytes) {
    |data| >= 13 && (data[..6] == Ascii("GIF87a") || data[..6] == Ascii("GIF89a"))
  }

  function Counted(data: Bytes, limit: int): Count {
    if !IsGif(data) then Malformed else CountFrom(Dropped(data, 13 + TableSize(data[10])), 0, limit)
  }

  method SkipSubBlocks(data: Bytes, start: nat) returns (end: Option<nat>)
    requires start <= |data|
    ensures end.Some? <==> BehindSubBlocks(data[start..]).Some?
    ensures end.Some? ==> start < end.value <= |data| && data[end.value..] == BehindSubBlocks(data[start..]).value
  {
    var i := start;
    while true
      invariant start <= i <= |data|
      invariant BehindSubBlocks(data[start..]) == BehindSubBlocks(data[i..])
      decreases |data| - i
    {
      if i >= |data| {
        return None;
      }
      var n := data[i];
      i := i + 1;
      if n == 0 {
        return Some(i);
      }
      if i + n > |data| {
        return None;
      }
      i := i + n;
    }
  }

  lemma AtExtension(data: Bytes, i: nat, frames: int, limit: int)
    requires i < |data| && frames < limit && data[i] == EXTENSION
    ensures CountFrom(Dropped(data, i), frames, limit) ==
      if i + 2 > |data| || BehindSubBlocks(data[i + 2..]).None? then Malformed
      else CountFrom(BehindSubBlocks(data[i + 2..]).value, frames, limit)
  {
    if i + 2 <= |data| {
      assert data[i..][2..] == data[i + 2..];
    }
    hide BehindSubBlocks;
  }

  lemma AtImage(data: Bytes, i: nat, frames: int, limit: int)
    requires i < |data| && frames < limit && data[i] == IMAGE
    ensures CountFrom(Dropped(data, i), frames, limit) ==
      if i + 10 > |data| || i + 10 + TableSize(data[i + 9]) >= |data| then Malformed
      else
        var j := i + 11 + TableSize(data[i + 9]);
        if BehindSubBlocks(data[j..]).None? then Malformed else CountFrom(BehindSubBlocks(data[j..]).value, frames + 1, limit)
  {
    ImageBehind(data, i);
    hide BehindSubBlocks, BehindImage, TableSize;
  }

  lemma ImageBehind(data: Bytes, i: nat)
    requires i < |data|
    ensures BehindImage(data[i..]) ==
      if i + 10 > |data| || i + 10 + TableSize(data[i + 9]) >= |data| then None
      else BehindSubBlocks(data[i + 11 + TableSize(data[i + 9])..])
  {
    hide TableSize, BehindSubBlocks, Dropped;
    var b := data[i..];
    if i + 10 <= |data| {
      assert b[9] == data[i + 9];
      DroppedBehind(data, i, 10 + TableSize(data[i + 9]));
    }
  }

  lemma DroppedBehind(data: Bytes, i: nat, n: nat)
    requires i <= |data|
    ensures Dropped(data[i..], n) == [] <==> i + n >= |data|
    ensures i + n < |data| ==> Dropped(data[i..], n)[1..] == data[i + n + 1..]
  {
  }

  lemma Begins(data: Bytes, limit: int)
    ensures IsGif(data) <==> |data| >= 13 && (data[..6] == Ascii("GIF87a") || data[..6] == Ascii("GIF89a"))
    ensures Counted(data, limit) == if IsGif(data) then CountFrom(Dropped(data, 13 + TableSize(data[10])), 0, limit) else Malformed
  {
    hide CountFrom, Dropped, TableSize, Ascii;
  }

  lemma TableWidth(packed: Byte)
    ensures TableSize(packed) == if packed >= 0x80 then 3 * Pow2(packed % 8 + 1) else 0
  {
  }

  lemma DroppedAt(data: Bytes, i: nat)
    ensures Dropped(data, i) == if i <= |data| then data[i..] else []
  {
  }

  method CountFrames(data: Bytes, frameLimit: int) returns (r: Count)
    ensures r == Counted(data, frameLimit)
  {
    hide *;
    Begins(data, frameLimit);
    if |data| < 13 || !(data[..6] == Ascii("GIF87a") || data[..6] == Ascii("GIF89a")) {
      return Malformed;
    }
    var i := 6;
    var packed := data[i + 4];
    i := i + 7;
    TableWidth(packed);
    if packed >= 0x80 {
      i := i + 3 * Pow2(packed % 8 + 1);
    }
    var frames := 0;
    while i < |data|
      invariant i >= 13 && Counted(data, frameLimit) == CountFrom(Dropped(data, i), frames, frameLimit)
      decreases |data| - i
    {
      DroppedAt(data, i);
      if frames >= frameLimit {
        AtRest(Dropped(data, i), frames, frameLimit);
        return Frames(frames);
      }
      if data[i] == EXTENSION {
        AtExtension(data, i, frames, frameLimit);
        if i + 2 > |data| {
          return Malformed;
        }
        var end := SkipSubBlocks(data, i + 2);
        if end.None? {
          return Malformed;
        }
        i := end.value;
      } else if data[i] == IMAGE {
        AtImage(data, i, frames, frameLimit);
        frames := frames + 1;
        if i + 10 > |data| {
          return Malformed;
        }
        packed := data[i + 9];
        TableWidth(packed);
        i := i + 10;
        if packed >= 0x80 {
          i := i + 3 * Pow2(packed % 8 + 1);
        }
        if i >= |data| {
          return Malformed;
        }
        i := i + 1;
        var end := SkipSubBlocks(data, i);
        if end.None? {
          return Malformed;
        }
        i := end.value;
      } else {
        AtRest(Dropped(data, i), frames, frameLimit);
        return if data[i] == TRAILER then Frames(frames) else Malformed;
      }
      DroppedAt(data, i);
    }
    DroppedAt(data, i);
    AtRest(Dropped(data, i), frames, frameLimit);
    return Frames(frames);
  }

  lemma AtRest(b: Bytes, frames: int, limit: int)
    requires b == [] || frames >= limit || b[0] !in {EXTENSION, IMAGE}
    ensures CountFrom(b, frames, limit) == if b == [] || frames >= limit || b[0] == TRAILER then Frames(frames) else Malformed
  {
  }

  // ------------------------------------------------------ well-formed files

  /** A data sub-block carries 1 to 255 bytes (GIF89a, section 15). */
  type SubBlock = b: Bytes | 1 <= |b| <= 255 witness [0]

  /** A colour table is as long as the packed field before it says (sections 18 and 20). */
  datatype Table = Table(packed: Byte, colours: Bytes) {
    predicate Valid() {
      |colours| == TableSize(packed)
    }
  }

  datatype Block =
    | Extension(kind: Byte, data: seq<SubBlock>)
    | Image(frame: Bytes, table: Table, codeSize: Byte, data: seq<SubBlock>)
  {
    /** An image descriptor gives position and size in eight bytes. */
    predicate Valid() {
      Image? ==> |frame| == 8 && table.Valid()
    }
  }

  /** Logical screen: four bytes of size, a packed field, background and aspect ratio, and the global table. */
  datatype File = File(is89a: bool, screen: Bytes, table: Table, background: Byte, aspect: Byte, blocks: seq<Block>) {
    predicate Valid() {
      |screen| == 4 && table.Valid() && forall k :: 0 <= k < |blocks| ==> blocks[k].Valid()
    }
  }

  function SubBlocks(data: seq<SubBlock>): Bytes {
    if data == [] then [0] else [|data[0]|] + data[0] + SubBlocks(data[1..])
  }

  function Serialized(block: Block): Bytes {
    match block
    case Extension(kind, data) => [0x21, kind] + SubBlocks(data)
    case Image(frame, table, codeSize, data) =>
      [0x2C] + frame + [table.packed] + table.colours + [codeSize] + SubBlocks(data)
  }

  function AllSerialized(blocks: seq<Block>): Bytes {
    if blocks == [] then [0x3B] else Serialized(blocks[0]) + AllSerialized(blocks[1..])
  }

  function Header(f: File): Bytes {
    (if f.is89a then Ascii("GIF89a") else Ascii("GIF87a")) + f.screen + [f.table.packed, f.background, f.aspect]
  }

  function Written(f: File): Bytes {
    Header(f) + f.table.colours + AllSerialized(f.blocks)
  }

  function Images(blocks: seq<Block>): nat {
    if blocks == [] then 0 else (if blocks[0].Image? then 1 else 0) + Images(blocks[1..])
  }

  lemma {:induction false} SubBlocksAreSkipped(data: seq<SubBlock>, rest: Bytes)
    ensures BehindSubBlocks(SubBlocks(data) + rest) == Some(rest)
  {
    var b := SubBlocks(data) + rest;
    if data == [] {
      assert b[1..] == rest;
    } else {
      var tail := SubBlocks(data[1..]) + rest;
      assert b == [|data[0]|] + data[0] + tail;
      assert b[1 + |data[0]|..] == tail;
      SubBlocksAreSkipped(data[1..], rest);
    }
  }

  lemma ImageIsSkipped(block: Block, rest: Bytes)
    requires block.Image? && block.Valid()
    ensures var b := Serialized(block) + rest;
      b[0] == IMAGE && BehindImage(b) == Some(rest)
  {
    var b := Serialized(block) + rest;
    var coded := [block.codeSize] + (SubBlocks(block.data) + rest);
    var front := [IMAGE] + block.frame + [block.table.packed] + block.table.colours;
    assert b == front + coded;
    assert b[9] == front[9] == block.table.packed;
    assert Dropped(b, |front|) == coded && coded[1..] == SubBlocks(block.data) + rest;
    SubBlocksAreSkipped(block.data, rest);
  }

  lemma ExtensionIsSkipped(block: Block, rest: Bytes)
    requires block.Extension?
    ensures var b := Serialized(block) + rest;
      |b| >= 2 && b[0] == EXTENSION && BehindSubBlocks(b[2..]) == Some(rest)
  {
    var b := Serialized(block) + rest;
    assert b[2..] == SubBlocks(block.data) + rest;
    SubBlocksAreSkipped(block.data, rest);
  }

  lemma BlockIsCounted(block: Block, tail: Bytes, frames: int, limit: int)
    requires block.Valid() && frames < limit
    ensures CountFrom(Serialized(block) + tail, frames, limit) == CountFrom(tail, frames + (if block.Image? then 1 else 0), limit)
  {
    if block.Image? {
      ImageIsSkipped(block, tail);
    } else {
      ExtensionIsSkipped(block, tail);
    }
    hide BehindSubBlocks, BehindImage, Serialized;
  }

  lemma FirstBlock(blocks: seq<Block>, rest: Bytes)
    requires blocks != []
    ensures AllSerialized(blocks) + rest == Serialized(blocks[0]) + (AllSerialized(blocks[1..]) + rest)
  {
    hide Serialized;
  }

  lemma EndOfBlocks(rest: Bytes)
    ensures (AllSerialized([]) + rest)[0] == TRAILER
  {
  }

  lemma {:induction false} BlocksAreCounted(blocks: seq<Block>, rest: Bytes, frames: int, limit: int)
    requires forall k :: 0 <= k < |blocks| ==> blocks[k].Valid()
    ensures CountFrom(AllSerialized(blocks) + rest, frames, limit) == Frames(Max(frames, Min(frames + Images(blocks), limit)))
    decreases |blocks|
  {
    hide CountFrom, AllSerialized, Serialized, TableSize;
    if frames >= limit {
      AtRest(AllSerialized(blocks) + rest, frames, limit);
    } else if blocks == [] {
      EndOfBlocks(rest);
      AtRest(AllSerialized(blocks) + rest, frames, limit);
    } else {
      var tail := AllSerialized(blocks[1..]) + rest;
      FirstBlock(blocks, rest);
      assert blocks[0].Valid();
      hide CountFrom, AllSerialized, Serialized, TableSize;
      BlockIsCounted(blocks[0], tail, frames, limit);
      BlocksAreCounted(blocks[1..], rest, frames + (if blocks[0].Image? then 1 else 0), limit);
    }
  }

  /**
   * A well-formed file, whatever is appended to it, counts as its images up to the limit. So a file that is
   * found malformed is no GIF, and one that counts fewer frames than the limit has exactly as many.
   */
  lemma WellFormedIsCounted(f: File, rest: Bytes, limit: int)
    requires f.Valid()
    ensures Counted(Written(f) + rest, limit) == Frames(Max(0, Min(Images(f.blocks), limit)))
  {
    hide *;
    var body := AllSerialized(f.blocks) + rest;
    WrittenSplits(f, rest);
    HeaderIsRead(f, f.table.colours + body);
    FileIsValid(f);
    Begins(Written(f) + rest, limit);
    BlocksAreCounted(f.blocks, rest, 0, limit);
  }

  lemma FileIsValid(f: File)
    requires f.Valid()
    ensures |f.table.colours| == TableSize(f.table.packed) && forall k :: 0 <= k < |f.blocks| ==> f.blocks[k].Valid()
  {
    hide TableSize;
  }

  lemma WrittenSplits(f: File, rest: Bytes)
    requires f.Valid()
    ensures var body := AllSerialized(f.blocks) + rest;
      && Written(f) + rest == Header(f) + (f.table.colours + body)
      && Dropped(Written(f) + rest, 13 + |f.table.colours|) == body
  {
    HeaderIsRead(f, []);
    var header, blocks := Header(f), AllSerialized(f.blocks);
    assert Written(f) == header + f.table.colours + blocks;
    hide Header, AllSerialized, Written, IsGif;
    Regroup(header, f.table.colours, blocks, rest);
  }

  lemma HeaderIsRead(f: File, rest: Bytes)
    requires f.Valid()
    ensures |Header(f)| == 13 && IsGif(Header(f) + rest) && (Header(f) + rest)[10] == f.table.packed
  {
    var data := Header(f) + rest;
    assert data[..6] == if f.is89a then Ascii("GIF89a") else Ascii("GIF87a");
  }

  /** For any bytes at all, the count is never beyond the limit. */
  lemma {:induction false} NeverBeyondLimit(b: Bytes, frames: int, limit: int)
    ensures CountFrom(b, frames, limit).Frames? ==> frames <= CountFrom(b, frames, limit).n <= Max(frames, limit)
    decreases |b|
  {
    if b != [] && frames < limit {
      if b[0] == EXTENSION && |b| >= 2 && BehindSubBlocks(b[2..]).Some? {
        NeverBeyondLimit(BehindSubBlocks(b[2..]).value, frames, limit);
      } else if b[0] == IMAGE && BehindImage(b).Some? {
        NeverBeyondLimit(BehindImage(b).value, frames + 1, limit);
      }
    }
  }
}
