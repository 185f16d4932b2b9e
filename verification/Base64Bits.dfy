/** What the accumulator codec reads off a 32-bit word: its low bits only. */
module Base64Bits {
  import opened Common
  import opened Base64

  /** `int` holds the low 32 bits of what was shifted in. */
  const WORD: nat := 0x1_0000_0000

  function ShiftIn(val: nat, bits: nat, x: nat): nat
    requires bits == 256 || bits == 64
  {
    (val * bits + x) % WORD
  }

  lemma Mod14(y: nat, q: nat, r: nat)
    requires y == 16384 * q + r && r < 16384
    ensures y % 16384 == r
  {
  }

  lemma Mod12(y: nat, q: nat, r: nat)
    requires y == 4096 * q + r && r < 4096
    ensures y % 4096 == r
  {
  }

  lemma Mod8(q: nat, r: nat)
    requires r < 256
    ensures (256 * q + r) % 256 == r
  {
  }

  lemma Mod6(q: nat, r: nat)
    requires r < 64
    ensures (64 * q + r) % 64 == r
  {
  }

  /** The wrap to 32 bits leaves the low 14 bits alone. */
  lemma WrapKeepsLow(y: nat)
    ensures y % WORD % 16384 == y % 16384 && y % WORD % 4096 == y % 4096
  {
    var q, w := y / WORD, y % WORD;
    assert y == WORD * q + w;
    Mod14(y, 262144 * q + w / 16384, w % 16384);
    Mod12(y, 1048576 * q + w / 4096, w % 4096);
  }

  // ---------------------------------------------------------------- bytes in, sextets out

  lemma ByteIn(val: nat, prev: Byte, c: Byte)
    requires val % 256 == prev
    ensures ShiftIn(val, 256, c) % 16384 == (prev % 64) * 256 + c
  {
    var k := val / 256;
    assert val == 256 * k + prev;
    WrapKeepsLow(val * 256 + c);
    Mod14((256 * k + prev) * 256 + c, 4 * k + prev / 64, (prev % 64) * 256 + c);
  }

  lemma SextetAt2(k: nat, h: nat, c: Byte)
    requires h < 64
    ensures (16384 * k + h * 256 + c) / 4 % 64 == c / 4
  {
    assert (16384 * k + h * 256 + c) / 4 == 4096 * k + h * 64 + c / 4;
    Mod6(64 * k + h, c / 4);
  }

  lemma Quarter(p: Byte)
    ensures p % 64 == 4 * (p % 64 / 4) + p % 4
  {
  }

  lemma Sixteenth(p: Byte)
    ensures p % 64 == 16 * (p % 64 / 16) + p % 16
  {
  }

  lemma SextetAt4(k: nat, p: Byte, c: Byte)
    ensures (16384 * k + p % 64 * 256 + c) / 16 % 64 == p % 4 * 16 + c / 16
  {
    Quarter(p);
    assert (16384 * k + p % 64 * 256 + c) / 16 == 1024 * k + p % 64 * 16 + c / 16;
    Mod6(16 * k + p % 64 / 4, p % 4 * 16 + c / 16);
  }

  lemma SextetAt6(k: nat, p: Byte, c: Byte)
    ensures (16384 * k + p % 64 * 256 + c) / 64 % 64 == p % 16 * 4 + c / 64
  {
    Sixteenth(p);
    assert (16384 * k + p % 64 * 256 + c) / 64 == 256 * k + p % 64 * 4 + c / 64;
    Mod6(4 * k + p % 64 / 16, p % 16 * 4 + c / 64);
  }

  /** The sextets at the shifts the encoder reaches after byte `c` follows byte `prev`. */
  lemma SextetsOf(w: nat, prev: Byte, c: Byte)
    requires w % 16384 == (prev % 64) * 256 + c
    ensures w % 256 == c && w % 64 == c % 64
    ensures w / 4 % 64 == c / 4 && w / 16 % 64 == prev % 4 * 16 + c / 16 && w / 64 % 64 == prev % 16 * 4 + c / 64
  {
    var k := w / 16384;
    assert w == 16384 * k + prev % 64 * 256 + c;
    Mod8(64 * k + prev % 64, c);
    assert w == 64 * (256 * k + prev % 64 * 4 + c / 64) + c % 64;
    Mod6(256 * k + prev % 64 * 4 + c / 64, c % 64);
    SextetAt2(k, prev % 64, c);
    SextetAt4(k, prev, c);
    SextetAt6(k, prev, c);
  }

  // ---------------------------------------------------------------- sextets in, bytes out

  lemma SextetIn(val: nat, prev: Sextet, t: Sextet)
    requires val % 64 == prev
    ensures ShiftIn(val, 64, t) % 4096 == prev * 64 + t
  {
    WrapKeepsLow(val * 64 + t);
    var k := val / 64;
    assert val == 64 * k + prev;
    Mod12(val * 64 + t, k, prev * 64 + t);
  }

  lemma ByteAt4(w: nat, prev: Sextet, t: Sextet)
    requires w % 4096 == prev * 64 + t
    ensures w / 16 % 256 == prev * 4 + t / 16
  {
    var k := w / 4096;
    assert w == 4096 * k + prev * 64 + t;
    assert w / 16 == 256 * k + (prev * 4 + t / 16);
  }

  lemma ByteAt2(w: nat, prev: Sextet, t: Sextet)
    requires w % 4096 == prev * 64 + t
    ensures w / 4 % 256 == (prev % 16) * 16 + t / 4
  {
    var k := w / 4096;
    assert w == 4096 * k + prev * 64 + t;
    assert w / 4 == 1024 * k + (prev * 16 + t / 4);
    assert prev == 16 * (prev / 16) + prev % 16;
    Mod8(4 * k + prev / 16, (prev % 16) * 16 + t / 4);
  }

  lemma ByteAt0(w: nat, prev: Sextet, t: Sextet)
    requires w % 4096 == prev * 64 + t
    ensures w % 256 == (prev % 4) * 64 + t && w % 64 == t
  {
    var k := w / 4096;
    assert w == 4096 * k + prev * 64 + t;
    assert prev == 4 * (prev / 4) + prev % 4;
    Mod8(16 * k + prev / 4, (prev % 4) * 64 + t);
  }
}
