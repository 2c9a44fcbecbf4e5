/** The image that mkfs/mkfs.c builds, as the base case of the ownership of
    blocks. Blocks come from a counter, and the bitmap is written last; until
    then the invariant speaks of the image with every bit set. */
module Mkfs {
  import opened Base
  import opened Blocks
  import opened FsLayout
  import opened Ownership

  function OnesBlock(): (b: Block) {
    seq(BSIZE, _ => 255)
  }

  predicate IsZero(b: Block) {
    forall k :: 0 <= k < BSIZE ==> b[k] == 0
  }

  lemma Zeroed(b: Block)
    requires IsZero(b)
    ensures b == ZeroBlock
  {
  }

  /** The image with a full bitmap. */
  ghost function Full(sb: Superblock, blocks: seq<Block>): (r: seq<Block>) {
    if sb.bmapstart < |blocks| then blocks[sb.bmapstart := OnesBlock()] else blocks
  }

  /** The blocks from a on. */
  ghost function From(a: nat, n: nat): (r: set<nat>)
    ensures forall b :: b in r <==> a <= b < n
  {
    if a >= n then {} else Interval(a, n - a)
  }

  lemma {:induction false} BitOfOnes(x: nat, k: nat, n: nat)
    requires k < n && x + 1 == Pow2(n)
    ensures Bit(x, k)
  {
    var half := Pow2(n - 1);
    assert Pow2(n) == 2 * half;
    hide Pow2;
    assert x == 2 * (half - 1) + 1;
    if k > 0 {
      BitOfOnes(x / 2, k - 1, n - 1);
    }
  }

  lemma {:induction false} BitOfZero(k: nat)
    ensures !Bit(0, k)
  {
    if k > 0 {
      BitOfZero(k - 1);
    }
  }

  lemma OnesMarked(i: nat)
    requires i < BPB
    ensures BlockBit(OnesBlock(), i) && !BlockBit(ZeroBlock, i)
  {
    assert Pow2(8) == 256 by {
      assert Pow2(2) == 4 && Pow2(4) == 16 && Pow2(6) == 64;
    }
    BitOfOnes(255, i % 8, 8);
    BitOfZero(i % 8);
  }

  function ZeroAddrs(): (a: seq<nat>)
    ensures |a| == NDIRECT + 1 && forall k :: 0 <= k <= NDIRECT ==> a[k] == 0
  {
    seq(NDIRECT + 1, _ => 0)
  }

  /** An inode that holds no blocks. */
  predicate Bare(n: Inode) {
    n.addrs == ZeroAddrs()
  }

  /** Before any file: nothing is owned, every data block is to be had. */
  lemma Start(sb: Superblock, blocks: seq<Block>, ino: seq<Inode>)
    requires sb.Valid() && sb.size <= BPB && |blocks| == sb.size && forall i :: 0 <= i < |ino| ==> Bare(ino[i])
    ensures Own(sb, Full(sb, blocks), ino, map[], From(sb.data, sb.size))
  {
    var full := Full(sb, blocks);
    forall b | 0 <= b < sb.size
      ensures Used(sb, full, b)
    {
      assert sb.Bblock(b) == sb.bmapstart;
      OnesMarked(b % BPB);
    }
  }

  /** Only the block numbers of inode i may have changed. */
  ghost predicate Moved(ino: seq<Inode>, ino': seq<Inode>, i: nat) {
    |ino'| == |ino| && i < |ino| && ino' == ino[i := ino[i].(addrs := ino'[i].addrs)]
  }

  /** File j of the given size has exactly the blocks below its size. */
  ghost predicate Exact(owner: Owner, j: nat, size: nat) {
    forall bn: nat :: bn < MAXFILE ==> ((j, SlotOf(bn)) in Slots(owner) <==> bn * BSIZE < size)
  }

  class Image {
    const sb: Superblock
    var blocks: seq<Block>
    var ino: seq<Inode>
    var freeblock: nat
    var freeinode: nat
    ghost var owner: Owner

    ghost predicate Shape()
      reads this
    {
      && sb.Valid() && sb.size <= BPB && |blocks| == sb.size && sb.data <= freeblock <= sb.size && 1 <= freeinode
      && (forall b :: freeblock <= b < sb.size ==> IsZero(blocks[b]))
      && (forall i :: freeinode <= i < |ino| ==> Bare(ino[i]))
    }

    ghost predicate Valid()
      reads this
    {
      Shape() && Own(sb, Full(sb, blocks), ino, owner, From(freeblock, sb.size))
    }

    /** No file has a hole, nor a block past its end. */
    ghost predicate Packed()
      reads this
    {
      (forall j :: 0 <= j < |ino| ==> Exact(owner, j, ino[j].size)) && forall j :: freeinode <= j < |ino| ==>
          ino[j].size == 0
    }

    /** The start of main: every sector zeroed. */
    constructor (sb: Superblock)
      requires sb.Valid() && sb.size <= BPB
      ensures Valid() && Packed() && this.sb == sb && |ino| == sb.ninodes && freeblock == sb.data && freeinode == 1
      ensures owner == map[] && forall i :: 0 <= i < |ino| ==> ino[i] == Inode(0, 0, 0, ZeroAddrs())
    {
      this.sb := sb;
      blocks := seq(sb.size, _ => seq(BSIZE, _ => 0));
      ino := seq(sb.ninodes, _ => Inode(0, 0, 0, ZeroAddrs()));
      freeblock, freeinode, owner := sb.data, 1, map[];
      new;
      Start(sb, blocks, ino);
    }

    /** ialloc */
    method Ialloc(kind: nat) returns (inum: nat)
      requires Valid() && freeinode < |ino|
      modifies this`ino, this`freeinode
      ensures Valid() && inum == old(freeinode) && freeinode == inum + 1
              && ino == old(ino)[inum := Inode(kind, 1, 0, ZeroAddrs())]
      ensures old(Packed()) ==> Packed()
    {
      hide Own;
      hide From;
      inum := freeinode;
      Resized(sb, Full(sb, blocks), ino, owner, From(freeblock, sb.size), inum, Inode(kind, 1, 0, ZeroAddrs()));
      ino := ino[inum := Inode(kind, 1, 0, ZeroAddrs())];
      freeinode := freeinode + 1;
    }

    /** Fill inode slot k from the counter if it is empty. */
    method FillAddr(i: nat, k: nat) returns (x: nat)
      requires Valid() && i < |ino| && i < freeinode && k <= NDIRECT && freeblock < sb.size
               && |ino[i].addrs| == NDIRECT + 1
      modifies this`ino, this`freeblock, this`owner
      ensures Valid() && old(freeblock) <= freeblock <= old(freeblock) + 1 && |ino| == |old(ino)|
      ensures |ino[i].addrs| == NDIRECT + 1 && x == ino[i].addrs[k] && x != 0 && Moved(old(ino), ino, i)
      ensures SameBytes(Full(sb, blocks), old(ino), Full(sb, blocks), ino)
      ensures SlotAdded(old(owner), owner, (i, k))
    {
      hide Own;
      hide ByteAt;
      hide SlotAdded;
      hide From;
      hide SameBytes;
      ghost var full, loose := Full(sb, blocks), From(freeblock, sb.size);
      if ino[i].addrs[k] == 0 {
        FromFirst(freeblock, sb.size);
        LooseFree(sb, full, ino, owner, loose, freeblock);
        ValuesMore(owner, freeblock, (i, k));
        Zeroed(blocks[freeblock]);
        AttachDirect(sb, full, ino, owner, loose, i, k, freeblock);
        ino := ino[i := SetAddr(ino[i], k, freeblock)];
        owner := owner[freeblock := (i, k)];
        freeblock := freeblock + 1;
      } else {
        OwnShape(sb, full, ino, owner, loose);
        SlotThere(sb, full, ino, owner, loose, i, k);
        Resized(sb, full, ino, owner, loose, i, ino[i]);
        assert ino[i := ino[i]] == ino;
      }
      x := ino[i].addrs[k];
    }

    /** Fill entry j of the indirect block from the counter if it is empty. */
    method FillEntry(i: nat, j: nat) returns (x: nat)
      requires Valid() && i < |ino| && j < NINDIRECT && freeblock < sb.size && InodeOk(Full(sb, blocks), ino[i])
               && ino[i].addrs[NDIRECT] != 0
      modifies this`blocks, this`freeblock, this`owner
      ensures Valid() && old(freeblock) <= freeblock <= old(freeblock) + 1
      ensures InodeOk(Full(sb, blocks), ino[i]) && x == Ptr(Full(sb, blocks), ino[i], NDIRECT + 1 + j) && x != 0
      ensures SameBytes(Full(sb, old(blocks)), ino, Full(sb, blocks), ino)
      ensures SlotAdded(old(owner), owner, (i, NDIRECT + 1 + j))
    {
      hide Own;
      hide From;
      hide SameBytes;
      hide Word;
      hide SetWord;
      hide SlotAdded;
      ghost var full, loose := Full(sb, blocks), From(freeblock, sb.size);
      var ind := ino[i].addrs[NDIRECT];
      IndirectAt(sb, full, ino, owner, loose, i);
      x := Word(blocks[ind], j);
      if x == 0 {
        x := freeblock;
        FilledEntry(sb, blocks, ino, owner, i, j, x);
        blocks := blocks[ind := SetWord(blocks[ind], j, x)];
        owner := owner[x := (i, NDIRECT + 1 + j)];
        freeblock := freeblock + 1;
      } else {
        SlotThere(sb, full, ino, owner, loose, i, NDIRECT + 1 + j);
        Resized(sb, full, ino, owner, loose, i, ino[i]);
        assert ino[i := ino[i]] == ino;
      }
    }

    /** The block for file block fbn: iappend's choice between direct and
        indirect. */
    method BlockFor(i: nat, fbn: nat) returns (x: nat)
      requires Valid() && i < |ino| && i < freeinode && fbn < MAXFILE && freeblock + 2 <= sb.size
      modifies this`blocks, this`ino, this`freeblock, this`owner
      ensures Valid() && old(freeblock) <= freeblock <= old(freeblock) + 2 && Moved(old(ino), ino, i)
      ensures InodeOk(Full(sb, blocks), ino[i]) && x == Ptr(Full(sb, blocks), ino[i], SlotOf(fbn)) && x != 0
      ensures SameBytes(Full(sb, old(blocks)), old(ino), Full(sb, blocks), ino)
      ensures SlotsMore(old(owner), owner, i, fbn)
    {
      hide Own;
      hide From;
      hide ByteAt;
      OwnShape(sb, Full(sb, blocks), ino, owner, From(freeblock, sb.size));
      if fbn < NDIRECT {
        x := FillAddr(i, fbn);
        OwnShape(sb, Full(sb, blocks), ino, owner, From(freeblock, sb.size));
      } else {
        x := FillAddr(i, NDIRECT);
        OwnShape(sb, Full(sb, blocks), ino, owner, From(freeblock, sb.size));
        x := FillEntry(i, fbn - NDIRECT);
      }
    }

    /** One turn of iappend's loop: part goes into the file at off, within one
        block. */
    method WritePart(i: nat, off: nat, part: seq<Byte>)
      requires Valid() && i < |ino| && i < freeinode && freeblock + 2 <= sb.size
      requires 0 < |part| && off + |part| <= MAXFILE * BSIZE && off % BSIZE + |part| <= BSIZE
      modifies this`blocks, this`ino, this`freeblock, this`owner
      ensures Valid() && old(freeblock) <= freeblock <= old(freeblock) + 2 && Moved(old(ino), ino, i)
      ensures Appended(Full(sb, old(blocks)), old(ino), Full(sb, blocks), ino, i, off, part)
      ensures SlotsMore(old(owner), owner, i, off / BSIZE)
    {
      hide Own;
      hide From;
      hide ByteAt;
      hide Ptr;
      hide Word;
      FileBlock(off, |part|);
      var x := BlockFor(i, off / BSIZE);
      ghost var full, loose := Full(sb, blocks), From(freeblock, sb.size);
      DataAt(sb, full, ino, owner, loose, i, off / BSIZE);
      var v := Splice(blocks[x], off % BSIZE, part);
      DataWrite(sb, full, ino, owner, loose, i, off / BSIZE, v);
      PartAppended(Full(sb, old(blocks)), old(ino), full, ino, full[x := v], i, off, part);
      blocks := blocks[x := v];
      assert Full(sb, blocks) == full[x := v];
    }

    /** iappend: the bytes go to the end of file i, and nothing else changes. It
        takes at most two blocks for each block that it writes in; mkfs does not
        ask whether they are left. */
    method Iappend(i: nat, data: seq<Byte>)
      requires Valid() && i < |ino| && i < freeinode && ino[i].size + |data| <= MAXFILE * BSIZE
      requires freeblock + 2 * Turns(ino[i].size, |data|) <= sb.size
      modifies this`blocks, this`ino, this`freeblock, this`owner
      ensures Valid() && freeblock <= old(freeblock) + 2 * Turns(old(ino)[i].size, |data|)
      ensures Appended(Full(sb, old(blocks)), old(ino), Full(sb, blocks), ino, i, old(ino)[i].size, data)
      ensures ino[i].size == old(ino)[i].size + |data| && ino[i].kind == old(ino)[i].kind
              && ino[i].nlink == old(ino)[i].nlink
      ensures forall j :: 0 <= j < |ino| && j != i ==> ino[j] == old(ino)[j]
      ensures old(Packed()) ==> Packed()
    {
      hide Own;
      hide From;
      hide Full;
      hide SameBytes;
      hide ByteAt;
      hide Turns;
      hide Appended;
      hide Chunk;
      hide Exact;
      hide SlotsMore;
      ghost var full0, ino0, size := Full(sb, blocks), ino, ino[i].size;
      OwnShape(sb, full0, ino, owner, From(freeblock, sb.size));
      AppendedNone(full0, ino0, i, size);
      var n, off := 0, ino[i].size;
      assert data[..0] == [];
      while n < |data|
        invariant 0 <= n <= |data| && off == size + n && Valid() && Moved(ino0, ino, i)
        invariant Appended(full0, ino0, Full(sb, blocks), ino, i, size, data[..n])
        invariant freeblock + 2 * Turns(off, |data| - n) <= old(freeblock) + 2 * Turns(size, |data|)
        invariant old(Packed()) ==> forall j :: 0 <= j < |ino| ==> Exact(owner, j, if j == i then off else ino0[j].size)
      {
        var n1 := Chunk(off, |data| - n);
        OneTurn(off, |data| - n, n1);
        ghost var full1, ino1, owner1 := Full(sb, blocks), ino, owner;
        WritePart(i, off, data[n..n + n1]);
        if old(Packed()) {
          forall j | 0 <= j < |ino|
            ensures Exact(owner, j, if j == i then off + n1 else ino0[j].size)
          {
            ExactMore(owner1, owner, i, off, n1, j, if j == i then off else ino0[j].size);
          }
        }
        AppendedMore(full0, ino0, full1, ino1, Full(sb, blocks), ino, i, size, data, n, n1);
        MovedTrans(ino0, ino1, ino, i);
        n, off := n + n1, off + n1;
      }
      assert data[..n] == data;
      ghost var ino2 := ino;
      Resized(sb, Full(sb, blocks), ino, owner, From(freeblock, sb.size), i, ino[i].(size := off));
      ino := ino[i := ino[i].(size := off)];
      AppendedSame(full0, ino0, Full(sb, blocks), ino2, ino, i, size, data);
    }

    /** The end of main: the root's size is rounded up past its last block. That
        leaves a hole exactly when the size was a multiple of the block size, and
        less than a file can have. */
    method FixRoot(root: nat)
      requires Valid() && root < |ino| && root < freeinode
      modifies this`ino
      ensures Valid() && SameBytes(Full(sb, blocks), old(ino), Full(sb, blocks), ino)
      ensures ino == old(ino)[root := old(ino)[root].(size := (old(ino)[root].size / BSIZE + 1) * BSIZE)]
      ensures old(Packed()) ==> (Holed(Full(sb, blocks), ino[root]) <==>
                                   old(ino)[root].size % BSIZE == 0 && old(ino)[root].size < MAXFILE * BSIZE)
    {
      hide Own;
      hide From;
      hide ByteAt;
      var n := ino[root].(size := (ino[root].size / BSIZE + 1) * BSIZE);
      Resized(sb, Full(sb, blocks), ino, owner, From(freeblock, sb.size), root, n);
      if Packed() {
        RootHole(sb, Full(sb, blocks), ino[root := n], owner, From(freeblock, sb.size), root, ino[root].size);
      }
      ino := ino[root := n];
    }

    /** balloc: the bitmap, with exactly the blocks below the counter marked. The
        image is what the kernel expects: every block in use is owned once. */
    method Balloc()
      requires Valid()
      modifies this`blocks
      ensures |blocks| == sb.size && Own(sb, blocks, ino, owner, {})
              && SameBytes(Full(sb, old(blocks)), ino, blocks, ino)
      ensures forall b :: b in owner ==> b < freeblock
    {
      hide Own;
      hide From;
      hide BlockBit;
      hide PutBlockBit;
      var buf: Block := seq(BSIZE, _ => 0);
      Zeroed(buf);
      forall j | 0 <= j < BPB
        ensures !BlockBit(buf, j)
      {
        OnesMarked(j);
      }
      var i := 0;
      while i < freeblock
        invariant 0 <= i <= freeblock && forall j :: 0 <= j < BPB ==> (BlockBit(buf, j) <==> j < i)
      {
        forall j | 0 <= j < BPB
          ensures BlockBit(PutBlockBit(buf, i, true), j) <==> j < i + 1
        {
          BlockBitOfPut(buf, i, true, j);
        }
        buf := PutBlockBit(buf, i, true);
        i := i + 1;
      }
      Finished(sb, blocks, ino, owner, freeblock, buf);
      OwnedBelow(sb, blocks, ino, owner, freeblock);
      blocks := blocks[sb.bmapstart := buf];
    }
  }

  /** Slot of block bn of inode i is filled, and no other but the indirect block's. */
  ghost predicate SlotsMore(owner: Owner, owner': Owner, i: nat, bn: nat) {
    bn < MAXFILE && Slots(owner) + {(i, SlotOf(bn))} <= Slots(owner') <= Slots(owner) + {(i, SlotOf(bn)), (i, NDIRECT)}
  }

  /** An empty entry of an indirect block gets the block that the counter gives. */
  lemma FilledEntry(sb: Superblock, blocks: seq<Block>, ino: seq<Inode>, owner: Owner, i: nat, j: nat, x: nat)
    requires sb.Valid() && |blocks| == sb.size && sb.data <= x < sb.size && IsZero(blocks[x]) && j < NINDIRECT
    requires Own(sb, Full(sb, blocks), ino, owner, From(x, sb.size)) && i < |ino| && InodeOk(Full(sb, blocks), ino[i])
    requires ino[i].addrs[NDIRECT] != 0 && ino[i].addrs[NDIRECT] < |blocks|
             && Word(blocks[ino[i].addrs[NDIRECT]], j) == 0
    ensures var ind := ino[i].addrs[NDIRECT];
            var blocks' := blocks[ind := SetWord(blocks[ind], j, x)];
            && sb.bmapstart != ind && ind < x
            && Own(sb, Full(sb, blocks'), ino, owner[x := (i, NDIRECT + 1 + j)], From(x + 1, sb.size))
            && SameBytes(Full(sb, blocks), ino, Full(sb, blocks'), ino)
            && InodeOk(Full(sb, blocks'), ino[i]) && Ptr(Full(sb, blocks'), ino[i], NDIRECT + 1 + j) == x
            && SlotAdded(owner, owner[x := (i, NDIRECT + 1 + j)], (i, NDIRECT + 1 + j))
  {
    hide Own;
    hide SameBytes;
    hide SlotAdded;
    hide Word;
    hide SetWord;
    hide Full;
    hide From;
    var full, loose, ind := Full(sb, blocks), From(x, sb.size), ino[i].addrs[NDIRECT];
    IndirectAt(sb, full, ino, owner, loose, i);
    FullElse(sb, blocks, ind, SetWord(blocks[ind], j, x));
    FullElse(sb, blocks, x, blocks[x]);
    FromFirst(x, sb.size);
    Zeroed(blocks[x]);
    LooseFree(sb, full, ino, owner, loose, x);
    ValuesMore(owner, x, (i, NDIRECT + 1 + j));
    AttachEntry(sb, full, ino, owner, loose, i, j, x);
    WordOfSetWord(blocks[ind], j, x, j);
  }

  lemma FullElse(sb: Superblock, blocks: seq<Block>, b: nat, v: Block)
    requires b < |blocks| && b != sb.bmapstart
    ensures |Full(sb, blocks)| == |blocks| && Full(sb, blocks)[b] == blocks[b]
            && Full(sb, blocks[b := v]) == Full(sb, blocks)[b := v]
  {
  }

  lemma FromFirst(x: nat, n: nat)
    requires x < n
    ensures x in From(x, n) && From(x, n) - {x} == From(x + 1, n) && forall b :: b in From(x, n) <==> x <= b < n
  {
  }

  lemma LooseFree(sb: Superblock, blocks: seq<Block>, ino: seq<Inode>, owner: Owner, loose: set<nat>, b: nat)
    requires Own(sb, blocks, ino, owner, loose) && b in loose
    ensures b !in owner
  {
  }

  /** A turn at the end of a file leaves it with exactly its blocks, and every
      other file as it was. */
  lemma ExactMore(owner: Owner, owner': Owner, i: nat, size: nat, n: nat, j: nat, sizej: nat)
    requires size / BSIZE < MAXFILE && SlotsMore(owner, owner', i, size / BSIZE) && 0 < n && size % BSIZE + n <= BSIZE
    requires Exact(owner, j, sizej) && (j == i ==> sizej == size)
    ensures Exact(owner', j, if j == i then size + n else sizej)
  {
    var size' := if j == i then size + n else sizej;
    forall bn: nat | bn < MAXFILE
      ensures (j, SlotOf(bn)) in Slots(owner') <==> bn * BSIZE < size'
    {
      assert (j, SlotOf(bn)) in Slots(owner) <==> bn * BSIZE < sizej;
      NextBlock(size, n, bn);
    }
  }

  lemma NextBlock(size: nat, n: nat, bn: nat)
    requires 0 < n && size % BSIZE + n <= BSIZE
    ensures bn * BSIZE < size + n <==> bn * BSIZE < size || bn == size / BSIZE
  {
  }

  /** How many blocks an append of n bytes at off writes in. */
  function Turns(off: nat, n: nat): (t: nat) {
    if n == 0 then 0 else (off % BSIZE + n + BSIZE - 1) / BSIZE
  }

  /** The bytes that one turn writes. */
  function Chunk(off: nat, n: nat): (n1: int) {
    if n < (off / BSIZE + 1) * BSIZE - off then n else (off / BSIZE + 1) * BSIZE - off
  }

  lemma AppendedNone(blocks: seq<Block>, ino: seq<Inode>, i: nat, off: nat)
    requires i < |ino| && forall j :: 0 <= j < |ino| ==> InodeOk(blocks, ino[j])
    ensures Appended(blocks, ino, blocks, ino, i, off, [])
  {
    hide ByteAt;
  }

  lemma MovedTrans(a: seq<Inode>, b: seq<Inode>, c: seq<Inode>, i: nat)
    requires Moved(a, b, i) && Moved(b, c, i)
    ensures Moved(a, c, i)
  {
  }

  lemma OneTurn(off: nat, n: nat, n1: int)
    requires 0 < n && n1 == Chunk(off, n)
    ensures 0 < n1 <= n && off % BSIZE + n1 <= BSIZE && Turns(off + n1, n - n1) + 1 <= Turns(off, n)
  {
    if n1 < n {
      assert (off + n1) % BSIZE == 0;
    }
  }

  lemma AppendedMore(b0: seq<Block>, ino0: seq<Inode>, b1: seq<Block>, ino1: seq<Inode>, b2: seq<Block>,
                     ino2: seq<Inode>,
                     i: nat, size: nat, data: seq<Byte>, n: nat, n1: nat)
    requires n + n1 <= |data| && Appended(b0, ino0, b1, ino1, i, size, data[..n])
             && Appended(b1, ino1, b2, ino2, i, size + n, data[n..n + n1])
    ensures Appended(b0, ino0, b2, ino2, i, size, data[..n + n1])
  {
    hide ByteAt;
    forall j, o | 0 <= j < |ino0| && 0 <= o < MAXFILE * BSIZE
      ensures ByteAt(b2, ino2[j], o) == if j == i
              && size <= o < size + n + n1 then data[..n + n1][o - size] else ByteAt(b0, ino0[j], o)
    {
      assert ByteAt(b1, ino1[j], o) == if j == i
             && size <= o < size + n then data[..n][o - size] else ByteAt(b0, ino0[j], o);
    }
  }

  lemma AppendedSame(b0: seq<Block>, ino0: seq<Inode>, b1: seq<Block>, ino1: seq<Inode>, ino2: seq<Inode>, i: nat,
                     size: nat, data: seq<Byte>)
    requires Appended(b0, ino0, b1, ino1, i, size, data) && SameBytes(b1, ino1, b1, ino2)
    ensures Appended(b0, ino0, b1, ino2, i, size, data)
  {
    hide ByteAt;
    forall j, o | 0 <= j < |ino0| && 0 <= o < MAXFILE * BSIZE
      ensures ByteAt(b1, ino2[j], o) == ByteAt(b1, ino1[j], o)
    {
    }
  }

  /** A block below the size is missing. */
  ghost predicate Holed(blocks: seq<Block>, n: Inode) {
    InodeOk(blocks, n) && exists bn: nat :: bn < MAXFILE && bn * BSIZE < n.size && Ptr(blocks, n, SlotOf(bn)) == 0
  }

  lemma RootHole(sb: Superblock, blocks: seq<Block>, ino: seq<Inode>, owner: Owner, loose: set<nat>, i: nat, size: nat)
    requires Own(sb, blocks, ino, owner, loose) && i < |ino| && Exact(owner, i, size)
             && ino[i].size == (size / BSIZE + 1) * BSIZE
    ensures Holed(blocks, ino[i]) <==> size % BSIZE == 0 && size < MAXFILE * BSIZE
  {
    hide Own;
    hide Ptr;
    var last := size / BSIZE;
    OwnShape(sb, blocks, ino, owner, loose);
    forall bn: nat | bn < MAXFILE
      ensures Ptr(blocks, ino[i], SlotOf(bn)) != 0 <==> bn * BSIZE < size
    {
      SlotIs(sb, blocks, ino, owner, loose, i, SlotOf(bn));
    }
    if last < MAXFILE {
      assert Ptr(blocks, ino[i], SlotOf(last)) != 0 <==> last * BSIZE < size;
    }
  }

  /** The blocks handed out are the owned ones. */
  lemma OwnedIs(sb: Superblock, blocks: seq<Block>, ino: seq<Inode>, owner: Owner, freeblock: nat, b: nat)
    requires Own(sb, Full(sb, blocks), ino, owner, From(freeblock, sb.size)) && sb.size <= BPB && |blocks| == sb.size
             && b < sb.size
    ensures b in owner ==> sb.data <= b < freeblock
    ensures sb.data <= b < freeblock ==> b in owner
    ensures sb.Bblock(b) == sb.bmapstart && sb.bmapstart < sb.data
  {
    hide Ptr;
    var full := Full(sb, blocks);
    OnesMarked(b % BPB);
    hide BlockBit;
    assert sb.Bblock(b) == sb.bmapstart;
    assert Used(sb, full, b);
    assert b in owner ==> OwnedAt(sb, full, ino, b, owner[b]);
  }

  lemma OwnedBelow(sb: Superblock, blocks: seq<Block>, ino: seq<Inode>, owner: Owner, freeblock: nat)
    requires Own(sb, Full(sb, blocks), ino, owner, From(freeblock, sb.size)) && sb.size <= BPB && |blocks| == sb.size
    ensures forall b :: b in owner ==> b < freeblock
  {
    hide Ptr;
    hide BlockBit;
    forall b | b in owner
      ensures b < freeblock
    {
      assert OwnedAt(sb, Full(sb, blocks), ino, b, owner[b]);
      OwnedIs(sb, blocks, ino, owner, freeblock, b);
    }
  }

  /** Writing the real bitmap. */
  lemma Finished(sb: Superblock, blocks: seq<Block>, ino: seq<Inode>, owner: Owner, freeblock: nat, buf: Block)
    requires Own(sb, Full(sb, blocks), ino, owner, From(freeblock, sb.size)) && sb.size <= BPB && |blocks| == sb.size
             && sb.data <= freeblock <= sb.size
    requires forall j :: 0 <= j < BPB ==> (BlockBit(buf, j) <==> j < freeblock)
    ensures Own(sb, blocks[sb.bmapstart := buf], ino, owner, {})
            && SameBytes(Full(sb, blocks), ino, blocks[sb.bmapstart := buf], ino)
  {
    hide BlockBit;
    hide PtrsOwned;
    hide SameBytes;
    hide From;
    var full := Full(sb, blocks);
    var blocks' := full[sb.bmapstart := buf];
    assert blocks' == blocks[sb.bmapstart := buf];
    OwnedIs(sb, blocks, ino, owner, freeblock, sb.bmapstart);
    UnownedWrite(sb, full, ino, owner, sb.bmapstart, buf);
    forall b | 0 <= b < sb.size
      ensures Used(sb, blocks', b) <==> b < sb.data || b in owner
    {
      OwnedIs(sb, blocks, ino, owner, freeblock, b);
    }
  }

  /** The bytes of part appear in file i from off on; every other byte of every
      file is as it was. */
  ghost predicate Appended(blocks: seq<Block>, ino: seq<Inode>, blocks': seq<Block>, ino': seq<Inode>, i: nat, off: nat,
                           part: seq<Byte>) {
    && |ino| == |ino'| && i < |ino|
    && (forall j :: 0 <= j < |ino| ==> InodeOk(blocks, ino[j]) && InodeOk(blocks', ino'[j]))
    && (forall j, o :: 0 <= j < |ino| && 0 <= o < MAXFILE * BSIZE ==>
          ByteAt(blocks', ino'[j], o) == if j == i
            && off <= o < off + |part| then part[o - off] else ByteAt(blocks, ino[j], o))
  }

  lemma FileBlock(off: nat, n: nat)
    requires 0 < n && off + n <= MAXFILE * BSIZE
    ensures off / BSIZE < MAXFILE
  {
  }

  /** A block that a file holds is a data block that is in use. */
  lemma DataAt(sb: Superblock, blocks: seq<Block>, ino: seq<Inode>, owner: Owner, loose: set<nat>, i: nat, bn: nat)
    requires Own(sb, blocks, ino, owner, loose) && i < |ino| && bn < MAXFILE && InodeOk(blocks, ino[i])
             && Ptr(blocks, ino[i], SlotOf(bn)) != 0
    ensures var x := Ptr(blocks, ino[i], SlotOf(bn)); sb.data <= x < sb.size && x !in loose && sb.bmapstart < sb.data
  {
    hide Word;
    var x := Ptr(blocks, ino[i], SlotOf(bn));
    assert OwnedAt(sb, blocks, ino, x, owner[x]);
  }

  lemma PartAppended(b0: seq<Block>, ino0: seq<Inode>, b1: seq<Block>, ino1: seq<Inode>, b2: seq<Block>, i: nat,
                     off: nat, part: seq<Byte>)
    requires SameBytes(b0, ino0, b1, ino1) && SameOthers(b1, ino1, b2, ino1, i) && i < |ino1| && InodeOk(b1, ino1[i])
             && InodeOk(b2, ino1[i])
    requires 0 < |part| && off + |part| <= MAXFILE * BSIZE && off % BSIZE + |part| <= BSIZE && off / BSIZE < MAXFILE
    requires var x := Ptr(b1, ino1[i], SlotOf(off / BSIZE));
             0 < x < |b1| && b2 == b1[x := Splice(b1[x], off % BSIZE, part)]
    requires forall o :: 0 <= o < MAXFILE * BSIZE ==>
               ByteAt(b2, ino1[i], o) == if o / BSIZE == off / BSIZE
                                         then Splice(b1[Ptr(b1, ino1[i], SlotOf(off / BSIZE))],
                                                     off % BSIZE, part)[o % BSIZE]
                                         else ByteAt(b1, ino1[i], o)
    ensures Appended(b0, ino0, b2, ino1, i, off, part)
  {
    hide Ptr;
    hide Word;
    var x := Ptr(b1, ino1[i], SlotOf(off / BSIZE));
    forall o | 0 <= o < MAXFILE * BSIZE
      ensures ByteAt(b2, ino1[i], o) == if off <= o < off + |part| then part[o - off] else ByteAt(b1, ino1[i], o)
    {
      if o / BSIZE == off / BSIZE {
        assert o - o % BSIZE == off - off % BSIZE;
        assert ByteAt(b1, ino1[i], o) == b1[x][o % BSIZE];
      } else {
        Outside(off, |part|, o);
      }
    }
  }

  lemma Outside(off: nat, n: nat, o: nat)
    requires off % BSIZE + n <= BSIZE && o / BSIZE != off / BSIZE
    ensures !(off <= o < off + n)
  {
  }

  /** An indirect block is a data block that is in use. */
  lemma IndirectAt(sb: Superblock, blocks: seq<Block>, ino: seq<Inode>, owner: Owner, loose: set<nat>, i: nat)
    requires Own(sb, blocks, ino, owner, loose) && i < |ino| && InodeOk(blocks, ino[i]) && ino[i].addrs[NDIRECT] != 0
    ensures sb.data <= ino[i].addrs[NDIRECT] < sb.size && ino[i].addrs[NDIRECT] !in loose && sb.bmapstart < sb.data
  {
    hide BitmapIs;
    hide Word;
    assert Ptr(blocks, ino[i], NDIRECT) == ino[i].addrs[NDIRECT];
    assert OwnedAt(sb, blocks, ino, ino[i].addrs[NDIRECT], owner[ino[i].addrs[NDIRECT]]);
  }
}
