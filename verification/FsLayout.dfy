/** On-disk layout of kernel/fs.h: the superblock, the free-block bitmap, and
    inodes with direct and indirect block numbers. */
module FsLayout {
  import opened Base
  import opened Blocks

  const BPB := BSIZE * 8
  const NDIRECT := 12
  const NINDIRECT := WORDS
  const MAXFILE := NDIRECT + NINDIRECT
  const IPB := 16
  /** An inode's block numbers: NDIRECT direct ones, the indirect block, and the
      indirect block's entries. */
  const SLOTS := NDIRECT + 1 + NINDIRECT

  // ---------- bits ----------

  /** (x >> k) & 1 */
  predicate Bit(x: nat, k: nat) {
    if k == 0 then x % 2 == 1 else Bit(x / 2, k - 1)
  }

  /** x | (1 << k) when on, x & ~(1 << k) when off. */
  function PutBit(x: nat, k: nat, on: bool): (r: nat) {
    if k == 0 then x / 2 * 2 + (if on then 1 else 0) else x % 2 + 2 * PutBit(x / 2, k - 1, on)
  }

  lemma {:induction false} BitOfPutBit(x: nat, k: nat, on: bool, j: nat)
    ensures Bit(PutBit(x, k, on), j) == if j == k then on else Bit(x, j)
  {
    if k > 0 && j > 0 {
      BitOfPutBit(x / 2, k - 1, on, j - 1);
    }
  }

  lemma {:induction false} PutBitRange(x: nat, k: nat, on: bool, n: nat, top: nat)
    requires k < n && top == Pow2(n) && x < top
    ensures PutBit(x, k, on) < top
  {
    if k > 0 {
      PutBitRange(x / 2, k - 1, on, n - 1, Pow2(n - 1));
    }
  }

  function Pow2(n: nat): (r: nat) {
    if n == 0 then 1 else 2 * Pow2(n - 1)
  }

  predicate BlockBit(b: Block, i: nat)
    requires i < BPB
  {
    Bit(b[i / 8], i % 8)
  }

  function PutBlockBit(b: Block, i: nat, on: bool): (r: Block)
    requires i < BPB
  {
    assert Pow2(8) == 256 by {
      assert Pow2(2) == 4 && Pow2(4) == 16 && Pow2(6) == 64;
    }
    PutBitRange(b[i / 8], i % 8, on, 8, 256);
    b[i / 8 := PutBit(b[i / 8], i % 8, on)]
  }

  lemma BlockBitOfPut(b: Block, i: nat, on: bool, j: nat)
    requires i < BPB && j < BPB
    ensures BlockBit(PutBlockBit(b, i, on), j) == if j == i then on else BlockBit(b, j)
  {
    BitOfPutBit(b[i / 8], i % 8, on, j % 8);
  }

  // ---------- superblock and inodes ----------

  /** Blocks below `data` hold boot block, superblock, log, inodes and bitmap. */
  datatype Superblock = Superblock(size: nat, ninodes: nat, inodestart: nat, bmapstart: nat, data: nat) {
    ghost predicate Valid() {
      && 0 < data <= size <= 0x8000_0000
      && 0 < inodestart && inodestart + ninodes / IPB < bmapstart
      && bmapstart + size / BPB < data
    }

    /** BBLOCK: the bitmap block with block b's bit. */
    function Bblock(b: nat): (r: nat) {
      b / BPB + bmapstart
    }

    /** IBLOCK: the block with inode i. */
    function Iblock(i: nat): (r: nat) {
      i / IPB + inodestart
    }
  }

  datatype Inode = Inode(kind: nat, nlink: int, size: nat, addrs: seq<nat>)

  /** Block b is marked in the bitmap. */
  ghost predicate Used(sb: Superblock, blocks: seq<Block>, b: nat)
    requires sb.Valid() && |blocks| == sb.size && b < sb.size
  {
    BlockBit(blocks[sb.Bblock(b)], b % BPB)
  }

  /** No block is free. */
  ghost predicate AllUsed(sb: Superblock, blocks: seq<Block>)
    requires sb.Valid() && |blocks| == sb.size
  {
    forall c :: 0 <= c < sb.size ==> Used(sb, blocks, c)
  }

  /** The slot of file block bn. */
  function SlotOf(bn: nat): (k: nat)
    requires bn < MAXFILE
    ensures k < SLOTS && k != NDIRECT
  {
    if bn < NDIRECT then bn else bn + 1
  }

  ghost predicate InodeOk(blocks: seq<Block>, n: Inode) {
    |n.addrs| == NDIRECT + 1 && n.addrs[NDIRECT] < |blocks|
  }

  /** The block number in slot k of inode n, 0 for none. */
  ghost function Ptr(blocks: seq<Block>, n: Inode, k: nat): (b: nat)
    requires InodeOk(blocks, n) && k < SLOTS
  {
    if k <= NDIRECT then n.addrs[k]
    else if n.addrs[NDIRECT] == 0 then 0
    else Word(blocks[n.addrs[NDIRECT]], k - NDIRECT - 1)
  }

  /** Byte o of the file: holes read as zero. */
  ghost function ByteAt(blocks: seq<Block>, n: Inode, o: nat): (r: Byte)
    requires InodeOk(blocks, n) && o < MAXFILE * BSIZE
  {
    var b := Ptr(blocks, n, SlotOf(o / BSIZE));
    if b == 0 || b >= |blocks| then 0 else blocks[b][o % BSIZE]
  }
}
