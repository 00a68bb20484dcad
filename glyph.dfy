/**
 * The bitmap rotation of createChar. The caller gives one byte per pixel row,
 * the five pixels of a row in its low five bits; the display wants one byte
 * per pixel column, and the column of bit 4 is sent first. createChar builds each column byte
 * by starting from the sentinel 0b10000000 and, for every row, shifting right
 * and setting the top bit when the row has that column's pixel.
 */
module Glyph {

  /** Bit k of b (bit 0 is the least significant). */
  function Bit(b: bv8, k: nat): bool
    requires k < 8
  {
    (b >> k) & 1 == 1
  }

  /** The test bit of pass j of the outer loop: 0b10000 shifted right j times. */
  function TestBit(j: nat): (r: bv8)
    requires j <= 5
  {
    if j == 0 then 0x10 else TestBit(j - 1) >> 1
  }

  /** The test bit of each of the five passes is set; after them it is zero. */
  lemma TestBitEnds(j: nat)
    requires j <= 5
    ensures TestBit(j) == 0 <==> j == 5
  {
    if j == 0 {} else if j == 1 {} else if j == 2 {} else if j == 3 {} else if j == 4 {}
  }

  /** `currentByte` after the first n passes of the inner loop, for one test bit. */
  function ColumnAcc(pixels: seq<bv8>, testBit: bv8, n: nat): (r: bv8)
    requires n <= |pixels|
    ensures n > 0 ==> (r & 0x80 != 0 <==> pixels[n - 1] & testBit != 0)
  {
    if n == 0 then 0x80
    else
      var shifted := ColumnAcc(pixels, testBit, n - 1) >> 1;
      if pixels[n - 1] & testBit != 0 then shifted | 0x80 else shifted
  }

  /** The five column bytes createChar sends for a glyph of `height` rows, the column of bit 4 first. */
  function Columns(pixels: seq<bv8>, height: nat): (r: seq<bv8>)
    requires height <= |pixels|
    ensures |r| == 5
    ensures forall j :: 0 <= j < 5 ==> r[j] == ColumnAcc(pixels, TestBit(j), height)
  {
    seq(5, j requires 0 <= j < 5 => ColumnAcc(pixels, TestBit(j), height))
  }

  /** Row byte `pos` of a glyph read back from its column bytes: column j gives pixel bit 4 - j. */
  function RowFromColumns(columns: seq<bv8>, pos: nat): bv8
    requires |columns| == 5 && pos < 8
  {
    (if Bit(columns[0], pos) then 0x10 else 0) |
    (if Bit(columns[1], pos) then 0x08 else 0) |
    (if Bit(columns[2], pos) then 0x04 else 0) |
    (if Bit(columns[3], pos) then 0x02 else 0) |
    (if Bit(columns[4], pos) then 0x01 else 0)
  }

  /** The reverse rotation: the rows of a `height`-row glyph from its five column bytes. */
  function RowsFromColumns(columns: seq<bv8>, height: nat): (r: seq<bv8>)
    requires |columns| == 5 && height <= 8
    ensures |r| == height
  {
    seq(height, i requires 0 <= i < height => RowFromColumns(columns, 8 - height + i))
  }

  /** The five pixel bits of every row, the part of a row byte the display shows. */
  function LowFiveBits(pixels: seq<bv8>, height: nat): (r: seq<bv8>)
    requires height <= |pixels|
    ensures |r| == height
    ensures forall i :: 0 <= i < height ==> r[i] == pixels[i] & 0x1F
  {
    seq(height, i requires 0 <= i < height => pixels[i] & 0x1F)
  }

  // ---------------------------------------------------------------------------
  // Lemmas
  // ---------------------------------------------------------------------------

  /** One inner-loop step at bit level: the top bit is the new pixel, the others move down by one. */
  lemma ShiftInBit(x: bv8, pixel: bool, k: nat)
    requires k < 8
    ensures Bit(if pixel then (x >> 1) | 0x80 else x >> 1, k) == if k == 7 then pixel else Bit(x, k + 1)
  {
  }

  /**
   * After n rows the sentinel sits at bit 7 - n (until it is shifted out), row
   * i sits at bit 8 - n + i, and the bits below the sentinel are clear.
   */
  lemma {:induction false} ColumnAccBits(pixels: seq<bv8>, testBit: bv8, n: nat, k: nat)
    requires n <= |pixels| && n <= 8 && k < 8
    ensures Bit(ColumnAcc(pixels, testBit, n), k)
      == if k + n == 7 then true
         else if k + n >= 8 then pixels[k + n - 8] & testBit != 0
         else false
  {
    if n == 0 {
      assert Bit(0x80, k) == (k == 7);
    } else {
      var prev := ColumnAcc(pixels, testBit, n - 1);
      ShiftInBit(prev, pixels[n - 1] & testBit != 0, k);
      if k < 7 {
        ColumnAccBits(pixels, testBit, n - 1, k + 1);
      }
    }
  }

  /** Testing against the test bit of pass j reads pixel bit 4 - j of a row. */
  lemma TestBitReadsPixel(x: bv8, j: nat)
    requires j < 5
    ensures x & TestBit(j) != 0 <==> Bit(x, 4 - j)
  {
    if j == 0 {} else if j == 1 {} else if j == 2 {} else if j == 3 {} else {}
  }

  /**
   * Column byte j of a glyph of height h: bit 8 - h + i is pixel bit 4 - j of
   * row i, bit 7 - h holds the sentinel while h < 8, and lower bits are clear.
   */
  lemma ColumnLayout(pixels: seq<bv8>, height: nat, j: nat, k: nat)
    requires height <= |pixels| && height <= 8 && j < 5 && k < 8
    ensures Bit(Columns(pixels, height)[j], k)
      == if k + height == 7 then true
         else if k + height >= 8 then Bit(pixels[k + height - 8], 4 - j)
         else false
  {
    ColumnAccBits(pixels, TestBit(j), height, k);
    if k + height >= 8 {
      TestBitReadsPixel(pixels[k + height - 8], j);
    }
  }

  /**
   * For the display's 8-row glyphs the sentinel is shifted out entirely and
   * row i lands in bit i: column byte j has bit i set iff row i has pixel 4 - j.
   */
  lemma ColumnBitIsPixel(pixels: seq<bv8>, j: nat, i: nat)
    requires 8 <= |pixels| && j < 5 && i < 8
    ensures Bit(Columns(pixels, 8)[j], i) <==> pixels[i] & TestBit(j) != 0
  {
    ColumnAccBits(pixels, TestBit(j), 8, i);
  }

  /** A byte rebuilt from its five low bits is its low five bits. */
  lemma LowBitsRebuilt(x: bv8)
    ensures (if x & 0x10 != 0 then 0x10 else 0) | (if x & 0x08 != 0 then 0x08 else 0) |
            (if x & 0x04 != 0 then 0x04 else 0) | (if x & 0x02 != 0 then 0x02 else 0) |
            (if x & 0x01 != 0 then 0x01 else 0) == x & 0x1F
  {
  }

  /** Rotating the columns back recovers every row's five pixel bits. */
  lemma TransposeRoundTrip(pixels: seq<bv8>, height: nat)
    requires height <= |pixels| && height <= 8
    ensures RowsFromColumns(Columns(pixels, height), height) == LowFiveBits(pixels, height)
  {
    var columns := Columns(pixels, height);
    forall i | 0 <= i < height
      ensures RowFromColumns(columns, 8 - height + i) == pixels[i] & 0x1F
    {
      var pos := 8 - height + i;
      ColumnAccBits(pixels, TestBit(0), height, pos);
      ColumnAccBits(pixels, TestBit(1), height, pos);
      ColumnAccBits(pixels, TestBit(2), height, pos);
      ColumnAccBits(pixels, TestBit(3), height, pos);
      ColumnAccBits(pixels, TestBit(4), height, pos);
      LowBitsRebuilt(pixels[i]);
    }
  }

  /** Only the five pixel bits of each row affect the column bytes. */
  lemma {:induction false} ColumnAccSeesTestBit(p: seq<bv8>, q: seq<bv8>, testBit: bv8, n: nat)
    requires n <= |p| && n <= |q|
    requires forall i :: 0 <= i < n ==> p[i] & testBit == q[i] & testBit
    ensures ColumnAcc(p, testBit, n) == ColumnAcc(q, testBit, n)
  {
    if n > 0 {
      ColumnAccSeesTestBit(p, q, testBit, n - 1);
      assert p[n - 1] & testBit == q[n - 1] & testBit;
    }
  }

  /** Bits 5 to 7 of the row bytes have no effect on what createChar sends. */
  lemma HighBitsIgnored(p: seq<bv8>, q: seq<bv8>, height: nat)
    requires height <= |p| && height <= |q|
    requires LowFiveBits(p, height) == LowFiveBits(q, height)
    ensures Columns(p, height) == Columns(q, height)
  {
    forall j | 0 <= j < 5
      ensures ColumnAcc(p, TestBit(j), height) == ColumnAcc(q, TestBit(j), height)
    {
      forall i | 0 <= i < height
        ensures p[i] & TestBit(j) == q[i] & TestBit(j)
      {
        assert LowFiveBits(p, height)[i] == LowFiveBits(q, height)[i];
        MaskedBitAgrees(p[i], q[i], j);
      }
      ColumnAccSeesTestBit(p, q, TestBit(j), height);
    }
  }

  /** Bytes that agree on their low five bits agree on every test bit. */
  lemma MaskedBitAgrees(x: bv8, y: bv8, j: nat)
    requires j < 5 && x & 0x1F == y & 0x1F
    ensures x & TestBit(j) == y & TestBit(j)
  {
    if j == 0 {} else if j == 1 {} else if j == 2 {} else if j == 3 {} else {}
  }

  // ---------------------------------------------------------------------------
  // The steps of createChar's outer loop
  // ---------------------------------------------------------------------------

  /** One pass of the inner loop: row i is shifted into the column byte. */
  lemma ColumnStep(pixels: seq<bv8>, testBit: bv8, i: nat, before: bv8, after: bv8)
    requires i < |pixels| && before == ColumnAcc(pixels, testBit, i)
    requires after == if pixels[i] & testBit != 0 then (before >> 1) | 0x80 else before >> 1
    ensures after == ColumnAcc(pixels, testBit, i + 1)
  {
  }

  /**
   * One pass of the outer loop: the byte the inner loop built for test bit j is
   * column j, so the bytes sent so far grow by one column, and the next test
   * bit is that of pass j + 1.
   */
  lemma ColumnPass(pixels: seq<bv8>, height: nat, sent: seq<bv8>,
                   testBit: bv8, j: nat, currentByte: bv8)
    requires height <= |pixels| && j <= 5 && testBit == TestBit(j) && testBit != 0
    requires currentByte == ColumnAcc(pixels, testBit, height)
    requires sent == Columns(pixels, height)[..j]
    ensures j < 5 && testBit >> 1 == TestBit(j + 1)
    ensures sent + [currentByte] == Columns(pixels, height)[..j + 1]
  {
    TestBitEnds(j);
    var columns := Columns(pixels, height);
    assert columns[..j + 1] == columns[..j] + [currentByte];
  }

  /** When the test bit reaches zero, all five columns have been sent. */
  lemma ColumnsDone(pixels: seq<bv8>, height: nat, sent: seq<bv8>,
                    testBit: bv8, j: nat)
    requires height <= |pixels| && j <= 5 && testBit == TestBit(j) && testBit == 0
    requires sent == Columns(pixels, height)[..j]
    ensures sent == Columns(pixels, height)
  {
    TestBitEnds(j);
    assert Columns(pixels, height)[..5] == Columns(pixels, height);
  }
}
