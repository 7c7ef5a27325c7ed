/**
 * Z-order (Morton) encoding of a brick position, as computed by the free
 * function `ZOrder` of the raycaster: the low ten bits of three 16-bit
 * coordinates are spread three bits apart and interleaved into one 32-bit
 * word (x in bits 0,3,6,..., y in bits 1,4,7,..., z in bits 2,5,8,...).
 */
module ZOrder {

  /** The number of bits per coordinate that survive the spread. */
  const CoordBits: bv32 := 10

  /** The masks of the four spread steps; the last one keeps every third bit. */
  const Mask16: bv32 := 0x030000FF
  const Mask8: bv32 := 0x0300F00F
  const Mask4: bv32 := 0x030C30C3
  const Mask2: bv32 := 0x09249249

  /** Bit `i` of `v`, as 0 or 1. */
  function Bit(v: bv32, i: bv32): bv32
    requires i < 32
  {
    (v >> i) & 1
  }

  /**
   * One coordinate through the four mask-and-shift steps. Only the bits of
   * `Mask2` can be set in the result, and only the low ten input bits matter.
   */
  function Spread(w: bv16): (r: bv32)
    ensures r & !Mask2 == 0
  {
    var v := w as bv32;
    var a := (v | (v << 16)) & Mask16;
    var b := (a | (a << 8)) & Mask8;
    var c := (b | (b << 4)) & Mask4;
    (c | (c << 2)) & Mask2
  }

  /** The Morton code of (x, y, z); it always fits in 30 bits. */
  function ZOrder(xPos: bv16, yPos: bv16, zPos: bv16): (r: bv32)
    ensures r < 0x4000_0000
  {
    var x := Spread(xPos);
    var y := Spread(yPos);
    var z := Spread(zPos);
    x | (y << 1) | (z << 2)
  }

  /** The inverse of `Spread`: gathers every third bit back into bits 0..9. */
  function Compact(v: bv32): (r: bv32)
    ensures r < 0x400
  {
    var a := v & Mask2;
    var b := (a | (a >> 2)) & Mask4;
    var c := (b | (b >> 4)) & Mask8;
    var d := (c | (c >> 8)) & Mask16;
    (d | (d >> 16)) & 0x3FF
  }

  /** De-interleaving a Morton code into its three coordinates. */
  function DecodeX(code: bv32): bv16 { Compact(code) as bv16 }
  function DecodeY(code: bv32): bv16 { Compact(code >> 1) as bv16 }
  function DecodeZ(code: bv32): bv16 { Compact(code >> 2) as bv16 }

  /** Spread places input bit i at bit 3i, for each of the ten kept bits. */
  lemma SpreadBit(v: bv16, i: bv32)
    requires i < CoordBits
    ensures Bit(Spread(v), 3 * i) == Bit(v as bv32, i)
    ensures Bit(Spread(v), 3 * i + 1) == 0 && Bit(Spread(v), 3 * i + 2) == 0
  {
  }

  /** Spread ignores every input bit above bit 9. */
  lemma SpreadLowBits(v: bv16)
    ensures Spread(v) == Spread(v & 0x3FF)
  {
  }

  /** Compact undoes Spread on the ten kept bits. */
  lemma CompactSpread(v: bv16)
    ensures Compact(Spread(v)) == (v & 0x3FF) as bv32
  {
  }

  /**
   * Bit 3i of the code is bit i of x, bit 3i+1 is bit i of y and bit 3i+2 is
   * bit i of z, for i in 0..9.
   */
  lemma ZOrderBits(x: bv16, y: bv16, z: bv16, i: bv32)
    requires i < CoordBits
    ensures Bit(ZOrder(x, y, z), 3 * i) == Bit(x as bv32, i)
    ensures Bit(ZOrder(x, y, z), 3 * i + 1) == Bit(y as bv32, i)
    ensures Bit(ZOrder(x, y, z), 3 * i + 2) == Bit(z as bv32, i)
  {
  }

  /** The code ignores every coordinate bit above bit 9. */
  lemma ZOrderLowBits(x: bv16, y: bv16, z: bv16)
    ensures ZOrder(x, y, z) == ZOrder(x & 0x3FF, y & 0x3FF, z & 0x3FF)
  {
    SpreadLowBits(x);
    SpreadLowBits(y);
    SpreadLowBits(z);
  }

  /** De-interleaving gives back the low ten bits of each coordinate. */
  lemma DecodeZOrder(x: bv16, y: bv16, z: bv16)
    ensures DecodeX(ZOrder(x, y, z)) == x & 0x3FF
    ensures DecodeY(ZOrder(x, y, z)) == y & 0x3FF
    ensures DecodeZ(ZOrder(x, y, z)) == z & 0x3FF
  {
  }

  /** On coordinates below 1024 the code is injective. */
  lemma ZOrderInjective(x1: bv16, y1: bv16, z1: bv16, x2: bv16, y2: bv16, z2: bv16)
    requires x1 < 0x400 && y1 < 0x400 && z1 < 0x400
    requires x2 < 0x400 && y2 < 0x400 && z2 < 0x400
    requires ZOrder(x1, y1, z1) == ZOrder(x2, y2, z2)
    ensures x1 == x2 && y1 == y2 && z1 == z2
  {
    DecodeZOrder(x1, y1, z1);
    DecodeZOrder(x2, y2, z2);
  }
}
