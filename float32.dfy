/**
 * The `f32` values a channel can hold, and the reinterpretation of a 32-bit pattern as an
 * IEEE-754 binary32 number (`f32::from_ne_bytes(bits.to_ne_bytes())` in the device crate).
 */
module Float32 {
  import opened Common

  /** An `f32`: a finite number (signed zero is not distinguished from zero), an infinity or NaN. */
  datatype F32 = Finite(r: real) | Infinity(negative: bool) | NaN

  const TWO16: nat := 0x1_0000
  const TWO23: nat := 0x80_0000
  const TWO31: nat := 0x8000_0000

  function Pow2(k: nat): (p: nat)
    ensures p >= 1
  {
    if k == 0 then 1 else 2 * Pow2(k - 1)
  }

  /** x * 2^n for any integer n. */
  function Scale(x: real, n: int): real {
    if n >= 0 then x * (Pow2(n) as real) else x / (Pow2(-n) as real)
  }

  /**
   * `((hi as u32) << 16) | lo as u32`: the high word in the upper half, the low word in the lower
   * half. Since `lo < 2^16` the shift-and-or is the sum below.
   */
  function Combine(hi: u16, lo: u16): (bits: u32)
    ensures bits / TWO16 == hi && bits % TWO16 == lo
  {
    hi * TWO16 + lo
  }

  /** Two word pairs give the same pattern only if they are the same pair. */
  lemma CombineInjective(hi: u16, lo: u16, hi': u16, lo': u16)
    requires Combine(hi, lo) == Combine(hi', lo')
    ensures hi == hi' && lo == lo'
  {
  }

  /** `word as f32`: every 16-bit word is exactly representable. */
  function FromWord(w: u16): (f: F32)
    ensures f.Finite? && f.r == w as real
  {
    Finite(w as real)
  }

  /** The binary32 fields of a bit pattern. */
  function SignBit(bits: u32): nat { bits / TWO31 }
  function ExponentField(bits: u32): nat { (bits / TWO23) % 0x100 }
  function MantissaField(bits: u32): nat { bits % TWO23 }

  /** IEEE-754 binary32 decoding of a bit pattern. */
  function F32FromBits(bits: u32): (f: F32)
    ensures f.Finite? <==> ExponentField(bits) != 0xFF
    ensures f.NaN? <==> ExponentField(bits) == 0xFF && MantissaField(bits) != 0
  {
    var e := ExponentField(bits);
    var m := MantissaField(bits);
    if e == 0xFF then
      (if m == 0 then Infinity(SignBit(bits) == 1) else NaN)
    else
      var magnitude := if e == 0 then Scale(m as real, -149) else Scale((TWO23 + m) as real, e - 150);
      Finite(if SignBit(bits) == 1 then -magnitude else magnitude)
  }

  lemma Pow2At22()
    ensures Pow2(22) == 0x40_0000
  {
    assert Pow2(1) == 2;
    assert Pow2(2) == 4;
    assert Pow2(4) == 16 by { assert Pow2(3) == 8; }
    assert Pow2(8) == 256 by { assert Pow2(5) == 32; assert Pow2(6) == 64; assert Pow2(7) == 128; }
    assert Pow2(12) == 4096 by { assert Pow2(9) == 512; assert Pow2(10) == 1024; assert Pow2(11) == 2048; }
    assert Pow2(16) == 65536 by { assert Pow2(13) == 8192; assert Pow2(14) == 16384; assert Pow2(15) == 32768; }
    assert Pow2(20) == 0x10_0000 by { assert Pow2(17) == 0x2_0000; assert Pow2(18) == 0x4_0000; assert Pow2(19) == 0x8_0000; }
    assert Pow2(21) == 0x20_0000;
  }

  /** The reply words `[0x4049, 0x0FDB]` (high word first) decode to approximately pi. */
  lemma PiFromWords()
    ensures var f := F32FromBits(Combine(0x4049, 0x0FDB));
            f.Finite? && 3.14159 < f.r < 3.14160
  {
    var bits := Combine(0x4049, 0x0FDB);
    assert bits == 0x4049_0FDB;
    assert ExponentField(bits) == 128;
    assert MantissaField(bits) == 0x49_0FDB;
    assert SignBit(bits) == 0;
    Pow2At22();
    assert F32FromBits(bits) == Finite((TWO23 + 0x49_0FDB) as real / (0x40_0000 as real));
  }

  /** 0x3F80_0000 is 1.0 and 0xBF80_0000 is -1.0. */
  lemma OneFromBits()
    ensures F32FromBits(0x3F80_0000) == Finite(1.0)
    ensures F32FromBits(0xBF80_0000) == Finite(-1.0)
  {
    assert ExponentField(0x3F80_0000) == 127 && MantissaField(0x3F80_0000) == 0;
    assert ExponentField(0xBF80_0000) == 127 && MantissaField(0xBF80_0000) == 0;
    assert Pow2(23) == TWO23 by { Pow2At22(); }
  }
}
