/** Disk blocks as byte sequences, and the little-endian words and single bits
    that the kernel stores in them. */
module Bytes {

  const BSIZE: nat := 1024

  type Byte = b: int | 0 <= b < 256

  type Block = s: seq<Byte> | |s| == BSIZE witness seq(BSIZE, _ => 0)

  const WORD: nat := 0x1_0000_0000

  function ZeroBlock(): Block
  {
    seq(BSIZE, _ => 0)
  }

  /** Word `i` of a block seen as an array of `uint`. */
  function GetWord(s: Block, i: nat): (v: nat)
    requires i < BSIZE / 4
    ensures v < WORD
  {
    var b0: int, b1: int, b2: int, b3: int := s[4 * i], s[4 * i + 1], s[4 * i + 2], s[4 * i + 3];
    b0 + 0x100 * b1 + 0x1_0000 * b2 + 0x100_0000 * b3
  }

  function PutWord(s: Block, i: nat, v: nat): Block
    requires i < BSIZE / 4 && v < WORD
  {
    s[4 * i := v % 0x100]
     [4 * i + 1 := v / 0x100 % 0x100]
     [4 * i + 2 := v / 0x1_0000 % 0x100]
     [4 * i + 3 := v / 0x100_0000]
  }

  lemma GetPutWord(s: Block, i: nat, v: nat, j: nat)
    requires i < BSIZE / 4 && j < BSIZE / 4 && v < WORD
    ensures GetWord(PutWord(s, i, v), j) == if i == j then v else GetWord(s, j)
  {
    if i == j {
      var a, b, c := v / 0x100, v / 0x1_0000, v / 0x100_0000;
      assert b == a / 0x100 && c == b / 0x100;
    } else if i < j {
      assert 4 * i + 3 < 4 * j;
    } else {
      assert 4 * j + 3 < 4 * i;
    }
  }

  /** Bit `k` of a number, counted from the least significant. */
  predicate TestBit(x: nat, k: nat)
  {
    if k == 0 then x % 2 == 1 else TestBit(x / 2, k - 1)
  }

  /** The number with bit `k` made `on`. */
  function WithBit(x: nat, k: nat, on: bool): nat
  {
    if k == 0 then x / 2 * 2 + (if on then 1 else 0) else WithBit(x / 2, k - 1, on) * 2 + x % 2
  }

  lemma {:induction false} TestWithBit(x: nat, k: nat, on: bool, j: nat)
    ensures TestBit(WithBit(x, k, on), j) == if j == k then on else TestBit(x, j)
  {
    if k > 0 && j > 0 {
      TestWithBit(x / 2, k - 1, on, j - 1);
    }
  }

  function Pow2(k: nat): nat { if k == 0 then 1 else 2 * Pow2(k - 1) }

  lemma {:induction false} WithBitBound(x: nat, k: nat, on: bool, n: nat)
    requires x < Pow2(n) && k < n
    ensures WithBit(x, k, on) < Pow2(n)
  {
    if k > 0 {
      WithBitBound(x / 2, k - 1, on, n - 1);
    }
  }

  /** Bit `i` of a block, eight bits to the byte. */
  predicate BlockBit(s: Block, i: nat)
    requires i < 8 * BSIZE
  {
    TestBit(s[i / 8], i % 8)
  }

  function WithBlockBit(s: Block, i: nat, on: bool): Block
    requires i < 8 * BSIZE
  {
    assert Pow2(8) == 256;
    WithBitBound(s[i / 8], i % 8, on, 8);
    s[i / 8 := WithBit(s[i / 8], i % 8, on)]
  }

  lemma BlockBitWith(s: Block, i: nat, on: bool, j: nat)
    requires i < 8 * BSIZE && j < 8 * BSIZE
    ensures BlockBit(WithBlockBit(s, i, on), j) == if j == i then on else BlockBit(s, j)
  {
    TestWithBit(s[i / 8], i % 8, on, j % 8);
  }

  lemma {:induction false} ZeroBlockWord(i: nat)
    requires i < BSIZE / 4
    ensures GetWord(ZeroBlock(), i) == 0
  {
  }
}
