/**
 * The byte-level vocabulary shared by the WAVE writer and reader: PHP's
 * `pack`/`unpack` codes `N` (32-bit big-endian), `V` (32-bit little-endian)
 * and `v` (16-bit little-endian), the four chunk tags, and PHP's `round()`.
 */
module WaveFormat {

  type Byte = x: int | 0 <= x < 256

  const RIFF: int := 0x52494646   // "RIFF"
  const WAVE: int := 0x57415645   // "WAVE"
  const FMT: int := 0x666d7420    // "fmt "
  const DATA: int := 0x64617461   // "data"
  const PCM_SIZE: int := 16
  const PCM_TYPE: int := 1

  /** The fixed size of the header the writer emits and the reader skips. */
  const HEADER_SIZE: nat := 44

  /** Reads a 16-bit little-endian unsigned value (unpack code `v`). */
  function ReadLE16(b: seq<Byte>, at: nat): (r: int)
    requires at + 2 <= |b|
    ensures 0 <= r < 0x10000
  {
    b[at] as int + 256 * b[at + 1] as int
  }

  /** Reads a 32-bit little-endian unsigned value (unpack code `V`). */
  function ReadLE32(b: seq<Byte>, at: nat): (r: int)
    requires at + 4 <= |b|
    ensures 0 <= r < 0x1_0000_0000
  {
    b[at] as int + 256 * b[at + 1] as int + 0x1_0000 * b[at + 2] as int + 0x100_0000 * b[at + 3] as int
  }

  /** Reads a 32-bit big-endian unsigned value (unpack code `N`). */
  function ReadBE32(b: seq<Byte>, at: nat): (r: int)
    requires at + 4 <= |b|
    ensures 0 <= r < 0x1_0000_0000
  {
    0x100_0000 * b[at] as int + 0x1_0000 * b[at + 1] as int + 256 * b[at + 2] as int + b[at + 3] as int
  }

  /** Packs the low 16 bits of `n`, low byte first (pack code `v`). */
  function LE16(n: int): (r: seq<Byte>)
    ensures |r| == 2
    ensures ReadLE16(r, 0) == n % 0x10000
  {
    var m := n % 0x10000;
    [m % 256, m / 256]
  }

  /** Packs the low 32 bits of `n`, low byte first (pack code `V`). */
  function LE32(n: int): (r: seq<Byte>)
    ensures |r| == 4
    ensures ReadLE32(r, 0) == n % 0x1_0000_0000
  {
    var m := n % 0x1_0000_0000;
    var lo, hi := m % 0x10000, m / 0x10000;
    assert ReadLE32(LE16(lo) + LE16(hi), 0) == ReadLE16(LE16(lo), 0) + 0x1_0000 * ReadLE16(LE16(hi), 0);
    LE16(lo) + LE16(hi)
  }

  /** Packs the low 32 bits of `n`, high byte first (pack code `N`). */
  function BE32(n: int): (r: seq<Byte>)
    ensures |r| == 4
    ensures ReadBE32(r, 0) == n % 0x1_0000_0000
  {
    var m := n % 0x1_0000_0000;
    var lo, hi := m % 0x10000, m / 0x10000;
    [hi / 256, hi % 256, lo / 256, lo % 256]
  }

  /** The bytes of an ASCII tag. */
  function Ascii(s: string): (r: seq<Byte>)
    requires forall i :: 0 <= i < |s| ==> s[i] as int < 256
    ensures |r| == |s|
    ensures forall i :: 0 <= i < |s| ==> r[i] == s[i] as int
  {
    seq(|s|, i requires 0 <= i < |s| => s[i] as int)
  }

  /** Packing a tag big-endian spells its four characters. */
  lemma TagsSpellNames()
    ensures BE32(RIFF) == Ascii("RIFF")
    ensures BE32(WAVE) == Ascii("WAVE")
    ensures BE32(FMT) == Ascii("fmt ")
    ensures BE32(DATA) == Ascii("data")
  {
    TagBytes(RIFF, "RIFF");
    TagBytes(WAVE, "WAVE");
    TagBytes(FMT, "fmt ");
    TagBytes(DATA, "data");
  }

  lemma TagBytes(tag: int, name: string)
    requires |name| == 4 && forall i :: 0 <= i < 4 ==> name[i] as int < 256
    requires tag == 0x100_0000 * name[0] as int + 0x1_0000 * name[1] as int + 256 * name[2] as int + name[3] as int
    ensures BE32(tag) == Ascii(name)
  {
    var hi, lo := 256 * name[0] as int + name[1] as int, 256 * name[2] as int + name[3] as int;
    assert tag % 0x1_0000_0000 == tag && tag / 0x10000 == hi && tag % 0x10000 == lo;
  }

  /**
   * PHP's `round()`: to the nearest integer, halves away from zero.
   */
  function Round(x: real): (r: int)
    ensures x >= 0.0 ==> r as real - 0.5 <= x < r as real + 0.5
    ensures x < 0.0 ==> r as real - 0.5 < x <= r as real + 0.5
  {
    if x >= 0.0 then (x + 0.5).Floor else -((-x + 0.5).Floor)
  }

  /** A read depends only on the bytes it covers. */
  lemma ReadLE16Slice(b: seq<Byte>, at: nat, p: seq<Byte>)
    requires at + 2 <= |b| && b[at..at + 2] == p
    ensures ReadLE16(b, at) == ReadLE16(p, 0)
  {
    assert b[at] == p[0] && b[at + 1] == p[1];
  }

  lemma ReadLE32Slice(b: seq<Byte>, at: nat, p: seq<Byte>)
    requires at + 4 <= |b| && b[at..at + 4] == p
    ensures ReadLE32(b, at) == ReadLE32(p, 0)
  {
    assert b[at] == p[0] && b[at + 1] == p[1] && b[at + 2] == p[2] && b[at + 3] == p[3];
  }

  lemma ReadBE32Slice(b: seq<Byte>, at: nat, p: seq<Byte>)
    requires at + 4 <= |b| && b[at..at + 4] == p
    ensures ReadBE32(b, at) == ReadBE32(p, 0)
  {
    assert b[at] == p[0] && b[at + 1] == p[1] && b[at + 2] == p[2] && b[at + 3] == p[3];
  }

  /** The same, with the covered bytes given one by one. */
  lemma ReadLE16Bytes(b: seq<Byte>, at: nat, p: seq<Byte>)
    requires at + 2 <= |b| && |p| == 2 && b[at] == p[0] && b[at + 1] == p[1]
    ensures ReadLE16(b, at) == ReadLE16(p, 0)
  {
  }

  lemma ReadLE32Bytes(b: seq<Byte>, at: nat, p: seq<Byte>)
    requires at + 4 <= |b| && |p| == 4
    requires b[at] == p[0] && b[at + 1] == p[1] && b[at + 2] == p[2] && b[at + 3] == p[3]
    ensures ReadLE32(b, at) == ReadLE32(p, 0)
  {
  }

  lemma ReadBE32Bytes(b: seq<Byte>, at: nat, p: seq<Byte>)
    requires at + 4 <= |b| && |p| == 4
    requires b[at] == p[0] && b[at + 1] == p[1] && b[at + 2] == p[2] && b[at + 3] == p[3]
    ensures ReadBE32(b, at) == ReadBE32(p, 0)
  {
  }

  /** Appending bytes does not change a read that ends before them. */
  lemma ReadLE16Prefix(a: seq<Byte>, c: seq<Byte>, at: nat)
    requires at + 2 <= |a|
    ensures ReadLE16(a + c, at) == ReadLE16(a, at)
  {
    assert (a + c)[at] == a[at] && (a + c)[at + 1] == a[at + 1];
  }

  /** A read inside a slice is the read at the shifted offset of the whole. */
  lemma ReadLE16Sub(f: seq<Byte>, s: nat, e: nat, at: nat)
    requires s <= e <= |f| && at + 2 <= e - s
    ensures ReadLE16(f[s..e], at) == ReadLE16(f, s + at)
  {
    assert f[s..e][at] == f[s + at] && f[s..e][at + 1] == f[s + at + 1];
  }

  lemma ReadLE32Sub(f: seq<Byte>, s: nat, e: nat, at: nat)
    requires s <= e <= |f| && at + 4 <= e - s
    ensures ReadLE32(f[s..e], at) == ReadLE32(f, s + at)
  {
    assert f[s..e][at] == f[s + at] && f[s..e][at + 1] == f[s + at + 1];
    assert f[s..e][at + 2] == f[s + at + 2] && f[s..e][at + 3] == f[s + at + 3];
  }

  lemma ReadBE32Sub(f: seq<Byte>, s: nat, e: nat, at: nat)
    requires s <= e <= |f| && at + 4 <= e - s
    ensures ReadBE32(f[s..e], at) == ReadBE32(f, s + at)
  {
    assert f[s..e][at] == f[s + at] && f[s..e][at + 1] == f[s + at + 1];
    assert f[s..e][at + 2] == f[s + at + 2] && f[s..e][at + 3] == f[s + at + 3];
  }
}
