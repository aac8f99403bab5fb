/** The reflected CRC-32 of the DFU file suffix, as a fold over bytes. */
module Crc32 {
  import opened ByteSeq

  const INIT: nat := 0xFFFF_FFFF
  const POLYNOMIAL: nat := 0xEDB8_8320

  function Xor(a: nat, b: nat): nat {
    if a == 0 then b
    else if b == 0 then a
    else 2 * Xor(a / 2, b / 2) + if a % 2 == b % 2 then 0 else 1
  }

  /** 32-bit complement. */
  function Not(r: int): int { 0xFFFF_FFFF - r }

  /** The bits of a byte, least significant first. */
  function ByteBits(b: byte): seq<bool> {
    [b % 2 == 1, b / 2 % 2 == 1, b / 4 % 2 == 1, b / 8 % 2 == 1,
     b / 16 % 2 == 1, b / 32 % 2 == 1, b / 64 % 2 == 1, b / 128 == 1]
  }

  function UpdateBits(r: nat, bits: seq<bool>): nat
    decreases |bits|
  {
    if bits == [] then r
    else UpdateBits(if (r % 2 == 1) != bits[0] then Xor(r / 2, POLYNOMIAL) else r / 2, bits[1..])
  }

  /** Register after hashing `bs`. */
  function Update(r: nat, bs: Bytes): nat
    decreases |bs|
  {
    if bs == [] then r else Update(UpdateBits(r, ByteBits(bs[0])), bs[1..])
  }

  /** The hash of everything fed into register `r`. */
  function Finalize(r: nat): int { Not(r) }

  /** Hashing in pieces is hashing at once. */
  lemma {:induction false} UpdateAppend(r: nat, xs: Bytes, ys: Bytes)
    ensures Update(r, xs + ys) == Update(Update(r, xs), ys)
    decreases |xs|
  {
    hide UpdateBits;
    if xs == [] {
      assert xs + ys == ys;
    } else {
      assert (xs + ys)[1..] == xs[1..] + ys;
      UpdateAppend(UpdateBits(r, ByteBits(xs[0])), xs[1..], ys);
    }
  }

  // --- Values that fix the parameters ----------------------------------------

  function Bit(n: nat, i: nat): bool {
    if i == 0 then n % 2 == 1 else Bit(n / 2, i - 1)
  }

  /** Exclusive or, bit by bit. */
  lemma {:induction false} XorBits(a: nat, b: nat, i: nat)
    ensures Bit(Xor(a, b), i) <==> Bit(a, i) != Bit(b, i)
    decreases i
  {
    if a == 0 { ZeroBits(i); }
    if b == 0 { ZeroBits(i); }
    if a != 0 && b != 0 && i > 0 { XorBits(a / 2, b / 2, i - 1); }
  }

  lemma {:induction false} ZeroBits(i: nat)
    ensures !Bit(0, i)
  {
    if i > 0 { ZeroBits(i - 1); }
  }

  function Ones(n: nat): seq<bool> { if n == 0 then [] else [true] + Ones(n - 1) }

  /** `r` with `n` ones shifted in. */
  function Filled(r: nat, n: nat): nat { if n == 0 then r else 2 * Filled(r, n - 1) + 1 }

  lemma EqualBit(r: nat, bits: seq<bool>)
    requires bits != [] && bits[0]
    ensures UpdateBits(2 * r + 1, bits) == UpdateBits(r, bits[1..])
  {
    hide Xor;
  }

  /** Ones in the data that meet ones in the register only shift it. */
  lemma {:induction false} OnesShift(r: nat, n: nat, rest: seq<bool>)
    ensures UpdateBits(Filled(r, n), Ones(n) + rest) == UpdateBits(r, rest)
  {
    hide UpdateBits;
    if n == 0 {
      assert Ones(0) + rest == rest;
    } else {
      var bits := Ones(n) + rest;
      assert bits[0] && bits[1..] == Ones(n - 1) + rest;
      EqualBit(Filled(r, n - 1), bits);
      OnesShift(r, n - 1, rest);
    }
  }

  lemma OnesByte(r: nat)
    ensures UpdateBits(Filled(r, 8), ByteBits(0xFF)) == r
  {
    hide Xor, UpdateBits;
    assert ByteBits(0xFF) == Ones(8) + [];
    OnesShift(r, 8, []);
    NoBits(r);
  }

  lemma NoBits(r: nat)
    ensures UpdateBits(r, []) == r
  {
  }

  /** The bits of a byte enter the hash from the least significant on. */
  lemma BitsLowFirst()
    ensures ByteBits(0x01) == [true, false, false, false, false, false, false, false]
    ensures ByteBits(0x02) == [false, true, false, false, false, false, false, false]
    ensures ByteBits(0x04) == [false, false, true, false, false, false, false, false]
    ensures ByteBits(0x08) == [false, false, false, true, false, false, false, false]
    ensures ByteBits(0x10) == [false, false, false, false, true, false, false, false]
    ensures ByteBits(0x20) == [false, false, false, false, false, true, false, false]
    ensures ByteBits(0x40) == [false, false, false, false, false, false, true, false]
    ensures ByteBits(0x80) == [false, false, false, false, false, false, false, true]
  {
  }

  /** The hash of FF FF FF FF is FFFFFFFF, and that of FF FF FF 7F is 12477CDF. */
  lemma KnownValues()
    ensures Finalize(Update(INIT, [0xFF, 0xFF, 0xFF, 0xFF])) == 0xFFFF_FFFF
    ensures Finalize(Update(INIT, [0xFF, 0xFF, 0xFF, 0x7F])) == 0x1247_7CDF
  {
    hide UpdateBits, ByteBits;
    OnesByte(0xFF_FFFF);
    OnesByte(0xFFFF);
    OnesByte(0xFF);
    OnesByte(0);
    LastBit();
  }

  lemma XorZero()
    ensures Xor(0, POLYNOMIAL) == 0xEDB8_8320
  {
  }

  /** The register meets the polynomial at the one bit that differs. */
  lemma LastBit()
    ensures UpdateBits(0xFF, ByteBits(0x7F)) == 0xEDB8_8320
  {
    hide Xor;
    assert ByteBits(0x7F) == Ones(7) + [false];
    OnesShift(1, 7, [false]);
    assert UpdateBits(1, [false]) == Xor(0, POLYNOMIAL);
    XorZero();
  }
}
