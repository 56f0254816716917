/** Object-store keys: `u/<owner>/<uuid>` for uploads, `m/<story>/<kind>.<ext>` for published media. */
module ObjectKeys {

  predicate SafeChar(c: char) {
    'a' <= c <= 'z' || 'A' <= c <= 'Z' || '0' <= c <= '9' || c == '-' || c == '_'
  }

  ghost predicate Safe(s: string) {
    s != [] && forall i :: 0 <= i < |s| ==> SafeChar(s[i])
  }

  /** Row identifiers are 128-bit numbers; object keys use their 8-4-4-4-12 text form. */
  type Uuid = n: int | 0 <= n < 0x1_0000_0000_0000_0000_0000_0000_0000_0000

  const HEX: string := "0123456789abcdef"

  function Hex(n: nat, width: nat): (h: string)
    ensures |h| == width
  {
    if width == 0 then "" else Hex(n / 16, width - 1) + [HEX[n % 16]]
  }

  function UuidText(u: Uuid): string {
    var h := Hex(u, 32);
    h[..8] + "-" + h[8..12] + "-" + h[12..16] + "-" + h[16..20] + "-" + h[20..]
  }

  datatype VariantKind = Image | Video | Poster | Thumb | Terminal
  {
    function Name(): string {
      match this
      case Image => "image"
      case Video => "video"
      case Poster => "poster"
      case Thumb => "thumb"
      case Terminal => "terminal"
    }
  }

  function Segment(s: string): string {
    if s == [] then "_" else seq(|s|, i requires 0 <= i < |s| => if SafeChar(s[i]) then s[i] else '_')
  }

  method SanitizeSegment(s: string) returns (b: string)
    ensures Safe(b)
    ensures b == Segment(s)
  {
    b := [];
    for i := 0 to |s|
      invariant |b| == i
      invariant forall j :: 0 <= j < i ==> b[j] == if SafeChar(s[j]) then s[j] else '_'
    {
      b := b + [if SafeChar(s[i]) then s[i] else '_'];
    }
    if |b| == 0 {
      return "_";
    }
  }

  function VariantKey(story: string, variant: string, ext: string): string {
    "m/" + Segment(story) + "/" + Segment(variant) + "." + Segment(ext)
  }

  /** ASCII letters and digits, the hyphen and the underscore, by code point. */
  ghost predicate PlainCharacter(c: char) {
    var p := c as int;
    0x61 <= p <= 0x7A || 0x41 <= p <= 0x5A || 0x30 <= p <= 0x39 || p == 0x2D || p == 0x5F
  }

  /** Replacing is never dropping, and safe text passes through untouched. */
  lemma SegmentFixesExactlySafe(s: string)
    ensures Safe(Segment(s))
    ensures s != [] ==> |Segment(s)| == |s|
    ensures forall k :: 0 <= k < |s| ==>
      Segment(s)[k] == if PlainCharacter(s[k]) then s[k] else '_'
    ensures Segment([]) == "_"
    ensures Segment(s) == s <==> Safe(s)
  {
    if Segment(s) == s {
      forall i | 0 <= i < |s| ensures SafeChar(s[i]) {
        assert s[i] == Segment(s)[i];
      }
    }
  }

  lemma SplitUnique(sep: char, a: string, b: string, a': string, b': string)
    requires sep !in a && sep !in a'
    requires a + [sep] + b == a' + [sep] + b'
    ensures a == a' && b == b'
  {
    var x := a + [sep] + b;
    assert x[|a|] == sep && forall i :: 0 <= i < |a| ==> x[i] == a[i];
    assert x[|a'|] == sep && forall i :: 0 <= i < |a'| ==> x[i] == a'[i];
    assert |a| == |a'|;
    assert a == x[..|a|] == a';
    assert b == x[|a| + 1..] == b';
  }

  lemma JoinInjective(s: string, v: string, e: string, s': string, v': string, e': string)
    requires Safe(s) && Safe(s') && Safe(v) && Safe(v')
    requires "m/" + s + "/" + v + "." + e == "m/" + s' + "/" + v' + "." + e'
    ensures s == s' && v == v' && e == e'
  {
    var x, x' := "m/" + s + "/" + v + "." + e, "m/" + s' + "/" + v' + "." + e';
    assert x[2..] == s + ['/'] + (v + ['.'] + e);
    assert x'[2..] == s' + ['/'] + (v' + ['.'] + e');
    SplitUnique('/', s, v + ['.'] + e, s', v' + ['.'] + e');
    SplitUnique('.', v, e, v', e');
  }

  /** Two media keys collide exactly when all three sanitized segments do. */
  lemma VariantKeyInjective(s: string, v: string, e: string, s': string, v': string, e': string)
    ensures VariantKey(s, v, e) == VariantKey(s', v', e')
       <==> Segment(s) == Segment(s') && Segment(v) == Segment(v') && Segment(e) == Segment(e')
  {
    if VariantKey(s, v, e) == VariantKey(s', v', e') {
      JoinInjective(Segment(s), Segment(v), Segment(e), Segment(s'), Segment(v'), Segment(e')) by {
        SegmentFixesExactlySafe(s); SegmentFixesExactlySafe(s');
        SegmentFixesExactlySafe(v); SegmentFixesExactlySafe(v');
      }
    }
  }

  function Pow16(width: nat): nat {
    if width == 0 then 1 else 16 * Pow16(width - 1)
  }

  lemma {:induction false} Pow16Adds(a: nat, b: nat)
    ensures Pow16(a + b) == Pow16(a) * Pow16(b)
  {
    if a > 0 {
      Pow16Adds(a - 1, b);
      assert 16 * (Pow16(a - 1) * Pow16(b)) == (16 * Pow16(a - 1)) * Pow16(b);
    }
  }

  lemma Pow16Doubles(a: nat)
    ensures Pow16(2 * a) == Pow16(a) * Pow16(a)
  {
    Pow16Adds(a, a);
  }

  lemma {:induction false} HexInjective(m: nat, n: nat, width: nat)
    requires m < Pow16(width) && n < Pow16(width)
    requires Hex(m, width) == Hex(n, width)
    ensures m == n
  {
    if width > 0 {
      var h := Hex(m, width);
      assert h[..width - 1] == Hex(m / 16, width - 1) == Hex(n / 16, width - 1);
      assert h[width - 1] == HEX[m % 16] == HEX[n % 16];
      HexInjective(m / 16, n / 16, width - 1);
    }
  }

  lemma {:induction false} HexSafe(n: nat, width: nat)
    ensures forall i :: 0 <= i < width ==> SafeChar(Hex(n, width)[i])
  {
    if width > 0 {
      HexSafe(n / 16, width - 1);
    }
  }

  lemma UuidTextSafe(u: Uuid)
    ensures Safe(UuidText(u)) && |UuidText(u)| == 36
  {
    HexSafe(u, 32);
    hide Hex;
  }

  lemma SameDigits(u: Uuid, v: Uuid)
    requires UuidText(u) == UuidText(v)
    ensures Hex(u, 32) == Hex(v, 32)
  {
    hide Hex;
    var t, h, k := UuidText(u), Hex(u, 32), Hex(v, 32);
    assert h[..8] == t[..8] == k[..8];
    assert h[8..12] == t[9..13] == k[8..12];
    assert h[12..16] == t[14..18] == k[12..16];
    assert h[16..20] == t[19..23] == k[16..20];
    assert h[20..] == t[24..] == k[20..];
    assert h == h[..8] + h[8..12] + h[12..16] + h[16..20] + h[20..];
    assert k == k[..8] + k[8..12] + k[12..16] + k[16..20] + k[20..];
  }

  lemma ThirtyTwoDigits()
    ensures Pow16(32) == 0x1_0000_0000_0000_0000_0000_0000_0000_0000
  {
    Pow16Doubles(4);
    Pow16Doubles(8);
    Pow16Doubles(16);
    assert Pow16(4) == 0x1_0000;
  }

  /** Identifier texts are safe segments and tell identifiers apart. */
  lemma UuidTextFaithful(u: Uuid, v: Uuid)
    ensures Safe(UuidText(u)) && |UuidText(u)| == 36
    ensures UuidText(u) == UuidText(v) ==> u == v
  {
    hide Hex, UuidText, Pow16;
    UuidTextSafe(u);
    if UuidText(u) == UuidText(v) {
      SameDigits(u, v);
      ThirtyTwoDigits();
      HexInjective(u, v, 32);
    }
  }

  /** `key` is one of the output keys a worker may write for `story`. */
  ghost predicate StoryKey(story: Uuid, key: string) {
    exists kind: VariantKind, ext: string :: key == VariantKey(UuidText(story), kind.Name(), ext)
  }

  predicate UploadKey(key: string) {
    "u/" <= key
  }

  /** Media keys of different stories never meet, and never meet an upload key. */
  lemma KeySpacesDisjoint(story: Uuid, key: string)
    requires StoryKey(story, key)
    ensures forall other: Uuid :: StoryKey(other, key) ==> other == story
    ensures !UploadKey(key) && key != ""
  {
    var kind: VariantKind, ext: string :| key == VariantKey(UuidText(story), kind.Name(), ext);
    assert key[0] == 'm';
    forall other: Uuid | StoryKey(other, key)
      ensures other == story
    {
      var k: VariantKind, e: string :| key == VariantKey(UuidText(other), k.Name(), e);
      VariantKeyInjective(UuidText(story), kind.Name(), ext, UuidText(other), k.Name(), e);
      UuidTextFaithful(story, other);
      UuidTextFaithful(other, story);
      SegmentFixesExactlySafe(UuidText(story));
      SegmentFixesExactlySafe(UuidText(other));
    }
  }

  /** One story's keys tell its variant kinds apart. */
  lemma KindsDisjoint(story: string, kind: VariantKind, ext: string, kind': VariantKind, ext': string)
    requires VariantKey(story, kind.Name(), ext) == VariantKey(story, kind'.Name(), ext')
    ensures kind == kind'
  {
    VariantKeyInjective(story, kind.Name(), ext, story, kind'.Name(), ext');
    SegmentFixesExactlySafe(kind.Name());
    SegmentFixesExactlySafe(kind'.Name());
    assert kind.Name()[0] == kind'.Name()[0] && |kind.Name()| == |kind'.Name()|;
  }
}
