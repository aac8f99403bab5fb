/** Bytes, byte sequences and the fixed-width integer encodings used on every wire of the daemon. */
module ByteSeq {

  type byte = x: int | 0 <= x < 256

  type Bytes = seq<byte>

  datatype Option<+T> = None | Some(value: T)

  /** The bytes of all blocks, in order. */
  function Concat(blocks: seq<Bytes>): Bytes {
    if blocks == [] then [] else blocks[0] + Concat(blocks[1..])
  }

  lemma {:induction false} ConcatSnoc(blocks: seq<Bytes>, b: Bytes)
    ensures Concat(blocks + [b]) == Concat(blocks) + b
  {
    if blocks == [] {
      assert blocks + [b] == [b];
    } else {
      assert (blocks + [b])[1..] == blocks[1..] + [b];
      ConcatSnoc(blocks[1..], b);
    }
  }

  lemma {:induction false} ConcatAppend(xs: seq<Bytes>, ys: seq<Bytes>)
    ensures Concat(xs + ys) == Concat(xs) + Concat(ys)
  {
    if xs == [] {
      assert xs + ys == ys;
    } else {
      assert (xs + ys)[1..] == xs[1..] + ys;
      ConcatAppend(xs[1..], ys);
    }
  }

  function Min(a: int, b: int): int {
    if a <= b then a else b
  }

  function Pow256(n: nat): (p: nat)
    ensures p > 0
  {
    if n == 0 then 1 else 256 * Pow256(n - 1)
  }

  /** Value of a little-endian byte string. */
  function LeValue(bs: Bytes): (v: nat)
    ensures v < Pow256(|bs|)
  {
    if bs == [] then 0 else bs[0] + 256 * LeValue(bs[1..])
  }

  /** The `width` little-endian bytes of `n` (higher bytes are cut off, as by a truncating cast). */
  function LeBytes(n: nat, width: nat): (bs: Bytes)
    ensures |bs| == width
  {
    if width == 0 then [] else [n % 256] + LeBytes(n / 256, width - 1)
  }

  lemma {:induction false} LeRoundTrip(n: nat, width: nat)
    requires n < Pow256(width)
    ensures LeValue(LeBytes(n, width)) == n
  {
    if width > 0 {
      LeRoundTrip(n / 256, width - 1);
      assert LeBytes(n, width)[1..] == LeBytes(n / 256, width - 1);
    }
  }

  /** Value of a big-endian byte string. */
  function BeValue(bs: Bytes): (v: nat)
    ensures v < Pow256(|bs|)
  {
    if bs == [] then 0 else 256 * BeValue(bs[..|bs| - 1]) + bs[|bs| - 1]
  }

  function BeBytes(n: nat, width: nat): (bs: Bytes)
    ensures |bs| == width
  {
    if width == 0 then [] else BeBytes(n / 256, width - 1) + [n % 256]
  }

  lemma {:induction false} BeRoundTrip(n: nat, width: nat)
    requires n < Pow256(width)
    ensures BeValue(BeBytes(n, width)) == n
  {
    if width > 0 {
      BeRoundTrip(n / 256, width - 1);
      var bs := BeBytes(n, width);
      assert bs[..|bs| - 1] == BeBytes(n / 256, width - 1);
    }
  }

  /** Little-endian: the last byte is the most significant. */
  lemma {:induction false} LeByPlace(bs: Bytes, last: byte)
    ensures LeValue(bs + [last]) == LeValue(bs) + last * Pow256(|bs|)
  {
    if bs == [] {
      assert bs + [last] == [last];
      assert LeValue([last][1..]) == 0;
    } else {
      assert (bs + [last])[1..] == bs[1..] + [last];
      LeByPlace(bs[1..], last);
      assert last * Pow256(|bs|) == 256 * (last * Pow256(|bs| - 1));
    }
  }

  /** Big-endian: the first byte is the most significant. */
  lemma {:induction false} BeByPlace(first: byte, bs: Bytes)
    ensures BeValue([first] + bs) == first * Pow256(|bs|) + BeValue(bs)
  {
    var all := [first] + bs;
    if bs == [] {
      assert all == [first] && BeValue([first][..0]) == 0;
    } else {
      assert all[..|all| - 1] == [first] + bs[..|bs| - 1];
      BeByPlace(first, bs[..|bs| - 1]);
      assert 256 * (first * Pow256(|bs| - 1)) == first * Pow256(|bs|);
    }
  }

  /** The places of the lengths and sizes on the wires, as numbers. */
  lemma Places()
    ensures Pow256(1) == 0x100 && Pow256(2) == 0x1_0000 && Pow256(3) == 0x100_0000 && Pow256(4) == 0x1_0000_0000
    ensures Pow256(8) == 0x1_0000_0000_0000_0000
    ensures BeBytes(0x0102, 8) == [0, 0, 0, 0, 0, 0, 1, 2] && LeBytes(0x0102, 4) == [2, 1, 0, 0]
  {
  }
}
