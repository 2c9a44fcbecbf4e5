/** Disk blocks as the kernel sees them: BSIZE bytes, read as little-endian
    32-bit words (log header, indirect blocks) or as bits (free map). */
module Blocks {
  import opened Base

  const BSIZE := 1024
  const WORDS := BSIZE / 4
  const SECTOR := 512

  type Word32 = x: int | 0 <= x < 0x1_0000_0000
  type Block = b: seq<Byte> | |b| == BSIZE witness seq(BSIZE, _ => 0)

  const ZeroBlock: Block := seq(BSIZE, _ => 0)

  /** The i-th 32-bit word of a block, as `((uint*)data)[i]` on RISC-V. */
  function Word(b: Block, i: nat): (w: Word32)
    requires i < WORDS
  {
    var lo: int := b[4 * i] as int + 256 * b[4 * i + 1] as int;
    var hi: int := b[4 * i + 2] as int + 256 * b[4 * i + 3] as int;
    lo + 65536 * hi
  }

  function SetWord(b: Block, i: nat, w: Word32): (r: Block)
    requires i < WORDS
  {
    b[4 * i := w % 256][4 * i + 1 := w / 256 % 256][4 * i + 2 := w / 65536 % 256][4 * i + 3 := w / 16777216]
  }

  lemma SplitWord(w: Word32)
    ensures w % 256 + 256 * (w / 256 % 256) + 65536 * (w / 65536 % 256) + 16777216 * (w / 16777216) == w
  {
  }

  lemma WordOfSetWord(b: Block, i: nat, w: Word32, j: nat)
    requires i < WORDS && j < WORDS
    ensures Word(SetWord(b, i, w), j) == if i == j then w else Word(b, j)
  {
    SplitWord(w);
  }

  lemma WordOfZero(i: nat)
    requires i < WORDS
    ensures Word(ZeroBlock, i) == 0
  {
  }
}
