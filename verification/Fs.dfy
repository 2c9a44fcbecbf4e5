/** kernel/fs.c: block allocation, the block map of an inode, truncation, and
    reading and writing file contents. `blocks` is the store of blocks as read
    through the cache; `ino` the in-memory inodes and `dino` their copies in the
    inode blocks, which iupdate brings up to date. */
module Fs {
  import opened Base
  import opened Blocks
  import opened FsLayout
  import opened Ownership
  import opened Demand

  class Fs {
    const sb: Superblock
    var blocks: seq<Block>
    var ino: seq<Inode>
    var dino: seq<Inode>
    ghost var owner: Owner
    /** log.outstanding: operations between begin_op and end_op, of any process. */
    var outstanding: nat
    /** Blocks passed to log_write so far. */
    ghost var logged: set<nat>

    constructor (sb: Superblock, blocks: seq<Block>, ino: seq<Inode>, ghost owner: Owner)
      requires Own(sb, blocks, ino, owner, {})
      ensures this.sb == sb && this.blocks == blocks && this.ino == ino && dino == ino && this.owner == owner
              && logged == {} && outstanding == 0
    {
      this.sb := sb;
      this.blocks := blocks;
      this.ino := ino;
      dino := ino;
      this.owner := owner;
      logged := {};
      outstanding := 0;
    }

    ghost predicate Valid(loose: set<nat>)
      reads this
    {
      Own(sb, blocks, ino, owner, loose) && |dino| == |ino|
    }

    /** The inodes on disk are those in memory: what a crash would leave of a
        committed transaction owns every block once, too. */
    ghost predicate OnDisk()
      reads this
    {
      dino == ino && Own(sb, blocks, dino, owner, {})
    }

    /** bread, change, log_write, brelse. A true result is the panic "log_write
        outside of trans". */
    method Put(b: nat, v: Block) returns (panic: bool)
      requires b < |blocks|
      modifies this`blocks, this`logged
      ensures panic <==> outstanding == 0
      ensures panic ==> blocks == old(blocks) && logged == old(logged)
      ensures !panic ==> blocks == old(blocks)[b := v] && logged == old(logged) + {b}
      ensures Covered(old(blocks), old(logged), blocks, logged, {})
    {
      if outstanding == 0 {
        return true;
      }
      blocks := blocks[b := v];
      logged := logged + {b};
      panic := false;
    }

    /** balloc's two loops: the lowest block whose bit is clear, else sb.size. */
    method FindFree() returns (b: nat)
      requires sb.Valid() && |blocks| == sb.size
      ensures b <= sb.size && (b < sb.size ==> !Used(sb, blocks, b))
      ensures forall c :: 0 <= c < b ==> Used(sb, blocks, c)
    {
      hide BlockBit;
      var base := 0;
      ghost var q := 0;
      while base < sb.size
        invariant base == q * 8192
        invariant forall c :: 0 <= c < base && c < sb.size ==> Used(sb, blocks, c)
        decreases sb.size + BPB - base
      {
        var m := sb.Bblock(base);
        BitIndex(q, 0);
        var bi := 0;
        while bi < BPB && base + bi < sb.size
          invariant 0 <= bi <= BPB
          invariant forall c :: 0 <= c < base + bi && c < sb.size ==> Used(sb, blocks, c)
        {
          BitIndex(q, bi);
          if !BlockBit(blocks[m], bi) {
            return base + bi;
          }
          bi := bi + 1;
        }
        base := base + BPB;
        q := q + 1;
      }
      b := sb.size;
    }

    /** balloc: the lowest free block, marked and zeroed; 0 when none is free. Outside
        of an operation a free block is log_write's panic. */
    method Balloc() returns (panic: bool, b: nat)
      requires Valid({})
      modifies this`blocks, this`logged
      ensures panic <==> outstanding == 0 && !AllUsed(sb, old(blocks))
      ensures b == 0 <==> panic || AllUsed(sb, old(blocks))
      ensures b == 0 ==> blocks == old(blocks) && logged == old(logged)
      ensures b != 0 ==>
                && b < sb.size && !Used(sb, old(blocks), b) && (forall c :: 0 <= c < b ==> Used(sb, old(blocks), c))
                && Valid({b}) && blocks[b] == ZeroBlock && SameBytes(old(blocks), ino, blocks, ino)
                && (forall c :: sb.data <= c < sb.size && c != b ==> blocks[c] == old(blocks)[c])
                && logged == old(logged) + {sb.Bblock(b), b}
      ensures Covered(old(blocks), old(logged), blocks, logged, {})
    {
      hide Own;
      hide SameBytes;
      hide Used;
      hide AllUsed;
      hide PutBlockBit;
      hide Covered;
      OwnShape(sb, blocks, ino, owner, {});
      var free := FindFree();
      AllUsedIs(sb, blocks, free);
      CoveredNone(blocks, logged);
      if free == sb.size {
        return false, 0;
      }
      b := free;
      ghost var before := blocks;
      MarkBlock(sb, blocks, ino, owner, {}, b);
      assert {} + {b} == {b};
      var m := sb.Bblock(b);
      panic := Put(m, PutBlockBit(blocks[m], b % BPB, true));
      if panic {
        return true, 0;
      }
      ghost var marked, logged1 := blocks, logged;
      LooseWrite(sb, blocks, ino, owner, {b}, b, ZeroBlock);
      panic := Put(b, ZeroBlock);
      SameBytesTrans(before, ino, marked, ino, blocks, ino);
      CoveredTrans(before, old(logged), marked, logged1, blocks, logged, {});
    }

    /** bfree: a true result is the panic "freeing free block", or log_write's. */
    method Bfree(b: nat) returns (panic: bool)
      requires sb.Valid() && |blocks| == sb.size && b < sb.size
      modifies this`blocks, this`logged
      ensures panic <==> !Used(sb, old(blocks), b) || outstanding == 0
      ensures panic ==> blocks == old(blocks) && logged == old(logged)
      ensures !panic ==>
                && blocks == old(blocks)[sb.Bblock(b) := PutBlockBit(old(blocks)[sb.Bblock(b)], b % BPB, false)]
                && logged == old(logged) + {sb.Bblock(b)}
      ensures Covered(old(blocks), old(logged), blocks, logged, {})
    {
      var m := sb.Bblock(b);
      var bi := b % BPB;
      if !BlockBit(blocks[m], bi) {
        return true;
      }
      panic := Put(m, PutBlockBit(blocks[m], bi, false));
    }

    /** Fill inode slot k, a direct one or the indirect block's, if empty. */
    method EnsureAddr(i: nat, k: nat) returns (panic: bool, addr: nat)
      requires Valid({}) && i < |ino| && k <= NDIRECT
      modifies this`blocks, this`ino, this`owner, this`logged
      ensures Valid({}) && Grown(old(ino), old(owner), ino, owner, i) && SameBytes(old(blocks), old(ino), blocks, ino)
      ensures panic <==> outstanding == 0 && old(ino)[i].addrs[k] == 0 && !AllUsed(sb, old(blocks))
      ensures outstanding == 0 ==> blocks == old(blocks) && ino == old(ino) && owner == old(owner)
      ensures addr == ino[i].addrs[k]
      ensures addr == 0 ==> panic || AllUsed(sb, blocks)
      ensures addr == 0 || old(ino)[i].addrs[k] != 0 ==>
                blocks == old(blocks) && ino == old(ino) && owner == old(owner) && logged == old(logged)
      ensures logged <= old(logged) + NonZero(addr) + BitmapBlocks(sb)
      ensures forall q :: 0 <= q <= NDIRECT && q != k ==> ino[i].addrs[q] == old(ino)[i].addrs[q]
      ensures if addr != 0 then Filled(old(owner), owner, i, {k}) else k !in HeldSlots(old(owner), i)
      ensures |owner| == |old(owner)| ==>
                blocks == old(blocks) && ino == old(ino) && owner == old(owner) && logged == old(logged)
      ensures |owner| >= |old(owner)|
      ensures Covered(old(blocks), old(logged), blocks, logged, {})
    {
      hide PtrsOwned;
      hide BitmapIs;
      hide SameBytes;
      hide Ptr;
      hide AllUsed;
      hide Filled;
      hide HeldSlots;
      hide Slots;
      hide SlotAdded;
      hide BitmapBlocks;
      hide Covered;
      OwnShape(sb, blocks, ino, owner, {});
      panic, addr := false, ino[i].addrs[k];
      DirectHeld(sb, blocks, ino, owner, i, k);
      CoveredNone(blocks, logged);
      if addr == 0 {
        ghost var blocks0 := blocks;
        panic, addr := Balloc();
        if addr == 0 {
          return;
        }
        BitmapBlockOf(sb, addr);
        FreshBlock(sb, blocks, ino, owner, addr);
        FilledOne(owner, addr, i, k);
        ValuesMore(owner, addr, (i, k));
        AttachDirect(sb, blocks, ino, owner, {addr}, i, k, addr);
        assert {addr} - {addr} == {};
        SameBytesTrans(blocks0, ino, blocks, ino, blocks, ino[i := SetAddr(ino[i], k, addr)]);
        ino := ino[i := SetAddr(ino[i], k, addr)];
        owner := owner[addr := (i, k)];
      }
    }

    /** Fill entry j of inode i's indirect block if empty. */
    method EnsureEntry(i: nat, j: nat) returns (panic: bool, addr: nat)
      requires Valid({}) && i < |ino| && j < NINDIRECT && InodeOk(blocks, ino[i]) && ino[i].addrs[NDIRECT] != 0
      modifies this`blocks, this`owner, this`logged
      ensures Valid({}) && Grown(ino, old(owner), ino, owner, i) && SameBytes(old(blocks), ino, blocks, ino)
      ensures panic <==>
                outstanding == 0 && Ptr(old(blocks), ino[i], NDIRECT + 1 + j) == 0 && !AllUsed(sb, old(blocks))
      ensures outstanding == 0 ==> blocks == old(blocks) && owner == old(owner)
      ensures InodeOk(blocks, ino[i]) && addr == Ptr(blocks, ino[i], NDIRECT + 1 + j)
      ensures addr == 0 ==> panic || AllUsed(sb, blocks)
      ensures addr == 0 || Ptr(old(blocks), ino[i], NDIRECT + 1 + j) != 0 ==>
                blocks == old(blocks) && owner == old(owner) && logged == old(logged)
      ensures logged <= old(logged) + NonZero(addr) + NonZero(ino[i].addrs[NDIRECT]) + BitmapBlocks(sb)
      ensures if addr != 0 then Filled(old(owner), owner, i, {NDIRECT + 1 + j})
              else NDIRECT + 1 + j !in HeldSlots(old(owner), i)
      ensures |owner| == |old(owner)| ==> blocks == old(blocks) && owner == old(owner) && logged == old(logged)
      ensures |owner| >= |old(owner)|
      ensures Covered(old(blocks), old(logged), blocks, logged, {})
    {
      hide PtrsOwned;
      hide BitmapIs;
      hide SameBytes;
      hide AllUsed;
      hide Word;
      hide SetWord;
      hide Filled;
      hide HeldSlots;
      hide Slots;
      hide SlotAdded;
      hide BitmapBlocks;
      hide Covered;
      OwnShape(sb, blocks, ino, owner, {});
      var ind := ino[i].addrs[NDIRECT];
      panic, addr := false, Word(blocks[ind], j);
      SlotHeld(sb, blocks, ino, owner, i, NDIRECT + 1 + j, addr);
      CoveredNone(blocks, logged);
      if addr == 0 {
        ghost var blocks0 := blocks;
        IndirectBlock(sb, blocks, ino, owner, i);
        panic, addr := Balloc();
        if addr == 0 {
          return;
        }
        BitmapBlockOf(sb, addr);
        FreshBlock(sb, blocks, ino, owner, addr);
        ghost var owner1 := owner[addr := (i, NDIRECT + 1 + j)];
        FilledOne(owner, addr, i, NDIRECT + 1 + j);
        ValuesMore(owner, addr, (i, NDIRECT + 1 + j));
        ghost var blocks1, logged1 := blocks, logged;
        assert blocks[ind] == blocks0[ind];
        AttachEntry(sb, blocks, ino, owner, {addr}, i, j, addr);
        assert {addr} - {addr} == {};
        panic := Put(ind, SetWord(blocks[ind], j, addr));
        WordOfSetWord(blocks1[ind], j, addr, j);
        owner := owner1;
        SameBytesTrans(blocks0, ino, blocks1, ino, blocks, ino);
        CoveredTrans(blocks0, old(logged), blocks1, logged1, blocks, logged, {});
      }
    }

    /** bmap. A result of 0 means the disk is full; even then the indirect block
        may have been added. Outside of an operation it panics where it would have
        filled a slot. Callers keep bn below MAXFILE, the panic "bmap: out
        of range". */
    method Bmap(i: nat, bn: nat) returns (panic: bool, addr: nat)
      requires Valid({}) && i < |ino| && bn < MAXFILE
      modifies this`blocks, this`ino, this`owner, this`logged
      ensures Valid({}) && Grown(old(ino), old(owner), ino, owner, i) && SameBytes(old(blocks), old(ino), blocks, ino)
      ensures InodeOk(blocks, ino[i]) && addr == Ptr(blocks, ino[i], SlotOf(bn))
      ensures addr == 0 ==> panic || AllUsed(sb, blocks)
      ensures panic <==> outstanding == 0 && Fills(sb, old(owner), i, bn)
      ensures outstanding == 0 ==> |owner| == |old(owner)|
      ensures InodeOk(old(blocks), old(ino)[i])
      ensures Ptr(old(blocks), old(ino)[i], SlotOf(bn)) != 0 ==>
                blocks == old(blocks) && ino == old(ino) && owner == old(owner) && logged == old(logged)
      ensures logged <= old(logged) + NonZero(addr) + NonZero(ino[i].addrs[NDIRECT]) + BitmapBlocks(sb)
      ensures old(ino)[i].addrs[NDIRECT] != 0 ==> ino[i].addrs[NDIRECT] == old(ino)[i].addrs[NDIRECT]
      ensures !panic ==> Served(sb, old(owner), owner, i, bn, addr != 0)
      ensures |owner| == |old(owner)| ==>
                blocks == old(blocks) && ino == old(ino) && owner == old(owner) && logged == old(logged)
      ensures Covered(old(blocks), old(logged), blocks, logged, {})
    {
      hide PtrsOwned;
      hide BitmapIs;
      hide ByteAt;
      hide Used;
      hide Word;
      hide HeldSlots;
      hide Served;
      hide Fills;
      hide Sought;
      hide Filled;
      hide AllUsed;
      hide Room;
      hide SameBytes;
      hide BitmapBlocks;
      hide Covered;
      OwnShape(sb, blocks, ino, owner, {});
      RoomIs(sb, blocks, ino, owner);
      if bn < NDIRECT {
        panic, addr := EnsureAddr(i, bn);
        OwnShape(sb, blocks, ino, owner, {});
        RoomIs(sb, blocks, ino, owner);
        FillsDirect(sb, old(blocks), old(ino), old(owner), i, bn);
        if !panic {
          ServedDirect(sb, old(owner), owner, i, bn, addr != 0);
        }
        return;
      }
      panic, addr := BmapIndirect(i, bn);
    }

    /** bmap's second half. */
    method BmapIndirect(i: nat, bn: nat) returns (panic: bool, addr: nat)
      requires Valid({}) && i < |ino| && NDIRECT <= bn < MAXFILE
      modifies this`blocks, this`ino, this`owner, this`logged
      ensures Valid({}) && Grown(old(ino), old(owner), ino, owner, i) && SameBytes(old(blocks), old(ino), blocks, ino)
      ensures InodeOk(blocks, ino[i]) && addr == Ptr(blocks, ino[i], SlotOf(bn))
      ensures addr == 0 ==> panic || AllUsed(sb, blocks)
      ensures panic <==> outstanding == 0 && Fills(sb, old(owner), i, bn)
      ensures outstanding == 0 ==> |owner| == |old(owner)|
      ensures InodeOk(old(blocks), old(ino)[i])
      ensures Ptr(old(blocks), old(ino)[i], SlotOf(bn)) != 0 ==>
                blocks == old(blocks) && ino == old(ino) && owner == old(owner) && logged == old(logged)
      ensures logged <= old(logged) + NonZero(addr) + NonZero(ino[i].addrs[NDIRECT]) + BitmapBlocks(sb)
      ensures old(ino)[i].addrs[NDIRECT] != 0 ==> ino[i].addrs[NDIRECT] == old(ino)[i].addrs[NDIRECT]
      ensures !panic ==> Served(sb, old(owner), owner, i, bn, addr != 0)
      ensures |owner| == |old(owner)| ==>
                blocks == old(blocks) && ino == old(ino) && owner == old(owner) && logged == old(logged)
      ensures Covered(old(blocks), old(logged), blocks, logged, {})
    {
      hide Own;
      hide SameBytes;
      hide Used;
      hide Word;
      hide HeldSlots;
      hide Served;
      hide Fills;
      hide Sought;
      hide Filled;
      hide AllUsed;
      hide Room;
      hide BitmapBlocks;
      hide Covered;
      hide NonZero;
      OwnShape(sb, blocks, ino, owner, {});
      RoomIs(sb, blocks, ino, owner);
      ghost var blocks0, ino0 := blocks, ino;
      FillsIndirect(sb, blocks, ino, owner, i, bn);
      var ind;
      panic, ind := EnsureAddr(i, NDIRECT);
      OwnShape(sb, blocks, ino, owner, {});
      RoomIs(sb, blocks, ino, owner);
      if ind == 0 {
        if !panic {
          ServedNot(sb, owner, i, bn);
        }
        return panic, 0;
      }
      ghost var blocks1, owner1, logged1 := blocks, owner, logged;
      panic, addr := EnsureEntry(i, bn - NDIRECT);
      RoomIs(sb, blocks, ino, owner);
      if addr != 0 {
        ServedIndirect(sb, old(owner), owner1, owner, i, bn);
      } else if !panic {
        ServedHalf(sb, old(owner), owner, i, bn);
      }
      SameBytesTrans(blocks0, ino0, blocks1, ino, blocks, ino);
      CoveredTrans(blocks0, old(logged), blocks1, logged1, blocks, logged, {});
      assert logged <= old(logged) + NonZero(addr) + NonZero(ino[i].addrs[NDIRECT]) + BitmapBlocks(sb);
    }

    /** bfree of a block that has left its file, seen from the files that stay:
        the panic cannot happen. */
    method FreeLoose(b: nat, ghost ino1: seq<Inode>, ghost owner1: Owner, ghost loose: set<nat>) returns (panic: bool)
      requires Own(sb, blocks, ino1, owner1, loose) && b in loose && outstanding > 0
      modifies this`blocks, this`logged
      ensures !panic && Own(sb, blocks, ino1, owner1, loose - {b})
      ensures SameBytes(old(blocks), ino1, blocks, ino1)
      ensures forall c :: sb.data <= c < sb.size ==> blocks[c] == old(blocks)[c]
      ensures Covered(old(blocks), old(logged), blocks, logged, {})
    {
      hide PtrsOwned;
      hide BitmapIs;
      hide SameBytes;
      hide Used;
      hide PutBlockBit;
      ClearBlock(sb, blocks, ino1, owner1, loose, b);
      FlipBit(sb, blocks, b, false);
      panic := Bfree(b);
    }

    /** itrunc's treatment of one direct block. */
    method FreeAddr(i: nat, k: nat) returns (panic: bool)
      requires Valid({}) && i < |ino| && k < NDIRECT && InodeOk(blocks, ino[i]) && outstanding > 0
      modifies this`blocks, this`ino, this`owner, this`logged
      ensures !panic && Valid({}) && SameOthers(old(blocks), old(ino), blocks, ino, i)
      ensures ino == old(ino)[i := SetAddr(old(ino)[i], k, 0)]
      ensures Shrunk(old(owner), owner, i)
      ensures forall c :: sb.data <= c < sb.size ==> blocks[c] == old(blocks)[c]
      ensures Covered(old(blocks), old(logged), blocks, logged, {})
    {
      hide PtrsOwned;
      hide BitmapIs;
      hide SameBytes;
      hide SameOthers;
      OwnShape(sb, blocks, ino, owner, {});
      OwnRange(sb, blocks, ino, owner);
      panic := false;
      var b := ino[i].addrs[k];
      ghost var blocks0, ino0 := blocks, ino;
      if b != 0 {
        DetachDirect(sb, blocks, ino, owner, {}, i, k);
        OwnedBy(sb, blocks, ino, owner, i, k);
        assert {} + {b} == {b} && {b} - {b} == {};
        panic := FreeLoose(b, ino[i := SetAddr(ino[i], k, 0)], owner - {b}, {b});
        ino := ino[i := SetAddr(ino[i], k, 0)];
        owner := owner - {b};
        SameBytesOthers(blocks0, blocks, ino, i);
        SameOthersTrans(blocks0, ino0, blocks0, ino, blocks, ino, i);
      } else {
        SameBytesOthers(blocks, blocks, ino, i);
        assert ino[i] == SetAddr(ino[i], k, 0);
      }
    }

    /** itrunc's loop over the entries of the indirect block. */
    method FreeEntries(ind: nat, ghost n: Inode, ghost blocks0: seq<Block>, ghost ino1: seq<Inode>, ghost owner1: Owner)
        returns (panic: bool)
      requires InodeOk(blocks, n) && n.addrs[NDIRECT] == ind != 0 && blocks == blocks0 && sb.data <= ind < sb.size
               && outstanding > 0
      requires Own(sb, blocks, ino1, owner1, Held(blocks0, n, NDIRECT + 1) + {ind})
      requires forall k :: NDIRECT < k < SLOTS && Ptr(blocks0, n, k) != 0 ==>
                 Ptr(blocks0, n, k) != ind && Ptr(blocks0, n, k) !in Held(blocks0, n, k + 1)
      modifies this`blocks, this`logged
      ensures !panic && Own(sb, blocks, ino1, owner1, {ind})
      ensures SameBytes(blocks0, ino1, blocks, ino1)
      ensures forall c :: sb.data <= c < sb.size ==> blocks[c] == old(blocks)[c]
      ensures Covered(old(blocks), old(logged), blocks, logged, {})
    {
      hide PtrsOwned;
      hide BitmapIs;
      hide SameBytes;
      hide Word;
      hide Held;
      hide Covered;
      CoveredNone(blocks, logged);
      OwnShape(sb, blocks, ino1, owner1, Held(blocks0, n, NDIRECT + 1) + {ind});
      panic := false;
      var j := 0;
      while j < NINDIRECT
        invariant 0 <= j <= NINDIRECT && !panic && |blocks| == sb.size
        invariant Own(sb, blocks, ino1, owner1, Held(blocks0, n, NDIRECT + 1 + j) + {ind})
        invariant SameBytes(blocks0, ino1, blocks, ino1)
        invariant forall c :: sb.data <= c < sb.size ==> blocks[c] == blocks0[c]
        invariant Covered(blocks0, old(logged), blocks, logged, {})
      {
        var a := Word(blocks[ind], j);
        ghost var k := NDIRECT + 1 + j;
        assert a == Ptr(blocks0, n, k);
        HeldStep(blocks0, n, k);
        if a != 0 {
          ghost var more, blocks1, logged1 := Held(blocks0, n, k) + {ind}, blocks, logged;
          panic := FreeLoose(a, ino1, owner1, more);
          assert more - {a} == Held(blocks0, n, k + 1) + {ind};
          SameBytesTrans(blocks0, ino1, blocks1, ino1, blocks, ino1);
          CoveredTrans(blocks0, old(logged), blocks1, logged1, blocks, logged, {});
        } else {
          assert Held(blocks0, n, k) == Held(blocks0, n, k + 1);
        }
        j := j + 1;
      }
      HeldStep(blocks0, n, SLOTS);
      assert Held(blocks0, n, SLOTS) + {ind} == {ind};
    }

    /** itrunc's treatment of the indirect block: free every block it lists,
        then the block itself. */
    method FreeIndirect(i: nat) returns (panic: bool)
      requires Valid({}) && i < |ino| && InodeOk(blocks, ino[i]) && outstanding > 0
      modifies this`blocks, this`ino, this`owner, this`logged
      ensures !panic && Valid({}) && SameOthers(old(blocks), old(ino), blocks, ino, i)
      ensures ino == old(ino)[i := SetAddr(old(ino)[i], NDIRECT, 0)]
      ensures Shrunk(old(owner), owner, i)
      ensures forall c :: sb.data <= c < sb.size ==> blocks[c] == old(blocks)[c]
      ensures Covered(old(blocks), old(logged), blocks, logged, {})
    {
      hide PtrsOwned;
      hide BitmapIs;
      hide SameBytes;
      hide SameOthers;
      hide Ptr;
      hide Covered;
      CoveredNone(blocks, logged);
      panic := false;
      var ind := ino[i].addrs[NDIRECT];
      ghost var n, gone := ino[i], Held(blocks, ino[i], NDIRECT);
      ghost var blocks0, ino0, owner1 := blocks, ino, owner - gone;
      ghost var ino1 := ino[i := SetAddr(ino[i], NDIRECT, 0)];
      DetachIndirect(sb, blocks, ino, owner, {}, i);
      HeldBy(sb, blocks, ino, owner, i);
      assert {} + gone == gone;
      if ind == 0 {
        HeldNone(blocks, n);
        assert n.addrs[NDIRECT := 0] == n.addrs;
        assert ino1 == ino;
        assert owner1 == owner;
        return;
      }
      IndirectBlock(sb, blocks, ino, owner, i);
      HeldAll(sb, blocks, ino, owner, i);
      panic := FreeEntries(ind, n, blocks0, ino1, owner1);
      ghost var blocks2, logged2 := blocks, logged;
      assert {ind} - {ind} == {};
      panic := FreeLoose(ind, ino1, owner1, {ind});
      ino := ino[i := SetAddr(ino[i], NDIRECT, 0)];
      owner := owner1;
      SameBytesTrans(blocks0, ino1, blocks2, ino1, blocks, ino1);
      CoveredTrans(blocks0, old(logged), blocks2, logged2, blocks, logged, {});
      SameBytesOthers(blocks0, blocks, ino1, i);
      SameOthersTrans(blocks0, ino0, blocks0, ino1, blocks, ino1, i);
    }

    /** iupdate: copy the in-memory inode to its inode block. */
    method Iupdate(i: nat) returns (panic: bool)
      requires i < |ino| == |dino|
      modifies this`dino, this`logged
      ensures panic <==> outstanding == 0
      ensures panic ==> dino == old(dino) && logged == old(logged)
      ensures !panic ==> dino == old(dino)[i := ino[i]] && logged == old(logged) + {sb.Iblock(i)}
    {
      if outstanding == 0 {
        return true;
      }
      dino := dino[i := ino[i]];
      logged := logged + {sb.Iblock(i)};
      panic := false;
    }

    /** itrunc: every block of the file goes back to the bitmap, none of any
        other file does, and "freeing free block" cannot happen. */
    method Itrunc(i: nat) returns (panic: bool)
      requires Valid({}) && i < |ino| && outstanding > 0
      modifies this`blocks, this`ino, this`dino, this`owner, this`logged
      ensures !panic && Valid({}) && SameOthers(old(blocks), old(ino), blocks, ino, i)
      ensures ino[i] == old(ino)[i].(size := 0, addrs := ino[i].addrs)
              && NoAddrs(ino[i].addrs)
      ensures dino == old(dino)[i := ino[i]]
      ensures forall b :: b in owner <==> b in old(owner) && old(owner)[b].0 != i
      ensures forall b :: b in owner ==> owner[b] == old(owner)[b]
      ensures old(OnDisk()) ==> OnDisk()
      ensures Covered(old(blocks), old(logged), blocks, logged, {})
      ensures InodesCovered(sb, old(dino), dino, logged)
    {
      hide PtrsOwned;
      hide BitmapIs;
      hide SameOthers;
      hide SameBytes;
      hide Ptr;
      hide Covered;
      hide InodesCovered;
      CoveredNone(blocks, logged);
      OwnShape(sb, blocks, ino, owner, {});
      SameBytesOthers(blocks, blocks, ino, i);
      panic := false;
      var k := 0;
      while k < NDIRECT
        invariant 0 <= k <= NDIRECT && !panic && Valid({}) && |ino| == |old(ino)| && InodeOk(blocks, ino[i])
        invariant SameOthers(old(blocks), old(ino), blocks, ino, i) && dino == old(dino)
        invariant ino[i] == old(ino)[i].(addrs := ino[i].addrs) && forall q :: 0 <= q < k ==> ino[i].addrs[q] == 0
        invariant Shrunk(old(owner), owner, i) && Covered(old(blocks), old(logged), blocks, logged, {})
      {
        ghost var blocks1, ino1, logged1 := blocks, ino, logged;
        panic := FreeAddr(i, k);
        CoveredTrans(old(blocks), old(logged), blocks1, logged1, blocks, logged, {});
        SameOthersTrans(old(blocks), old(ino), blocks1, ino1, blocks, ino, i);
        OwnShape(sb, blocks, ino, owner, {});
        k := k + 1;
      }
      ghost var blocks1, ino1, logged1 := blocks, ino, logged;
      panic := FreeIndirect(i);
      CoveredTrans(old(blocks), old(logged), blocks1, logged1, blocks, logged, {});
      SameOthersTrans(old(blocks), old(ino), blocks1, ino1, blocks, ino, i);
      OwnShape(sb, blocks, ino, owner, {});
      ghost var ino2 := ino;
      Resized(sb, blocks, ino, owner, {}, i, ino[i].(size := 0));
      ino := ino[i := ino[i].(size := 0)];
      SameOthersTrans(old(blocks), old(ino), blocks, ino2, blocks, ino, i);
      OwnShape(sb, blocks, ino, owner, {});
      OwnsNothing(sb, blocks, ino, owner, i);
      Synced(old(blocks), old(ino), blocks, ino, i);
      ghost var logged2 := logged;
      panic := Iupdate(i);
      CoveredMore(old(blocks), old(logged), blocks, logged2, logged, {});
      OneInode(sb, old(dino), i, ino[i], logged);
    }

    /** iput of an inode with `ref` references, locked out of other hands: the
        last reference to an inode without links frees its blocks and the inode,
        in memory and on disk. */
    method Iput(i: nat, ref: nat, valid: bool) returns (panic: bool, ref': nat)
      requires Valid({}) && i < |ino| && ref > 0 && outstanding > 0
      modifies this`blocks, this`ino, this`dino, this`owner, this`logged
      ensures !panic && Valid({}) && ref' == ref - 1 && SameOthers(old(blocks), old(ino), blocks, ino, i)
      ensures !(ref == 1 && valid && old(ino)[i].nlink == 0) ==>
                blocks == old(blocks) && ino == old(ino) && dino == old(dino) && owner == old(owner)
      ensures ref == 1 && valid && old(ino)[i].nlink == 0 ==>
                && ino[i].kind == 0 && ino[i].size == 0 && dino == old(dino)[i := ino[i]]
                && NoAddrs(ino[i].addrs)
                && (forall b :: b in owner <==> b in old(owner) && old(owner)[b].0 != i)
      ensures old(OnDisk()) ==> OnDisk()
      ensures Covered(old(blocks), old(logged), blocks, logged, {})
      ensures InodesCovered(sb, old(dino), dino, logged)
    {
      hide Own;
      hide SameOthers;
      hide SameBytes;
      hide Covered;
      hide InodesCovered;
      CoveredNone(blocks, logged);
      NoInode(sb, dino, logged);
      OwnShape(sb, blocks, ino, owner, {});
      SameBytesOthers(blocks, blocks, ino, i);
      panic := false;
      if ref == 1 && valid && ino[i].nlink == 0 {
        panic := Itrunc(i);
        ghost var ino1 := ino;
        Resized(sb, blocks, ino, owner, {}, i, ino[i].(kind := 0));
        ino := ino[i := ino[i].(kind := 0)];
        assert NoAddrs(ino[i].addrs);
        SameOthersTrans(old(blocks), old(ino), blocks, ino1, blocks, ino, i);
        Synced(old(blocks), old(ino), blocks, ino, i);
        ghost var logged1 := logged;
        panic := Iupdate(i);
        CoveredMore(old(blocks), old(logged), blocks, logged1, logged, {});
        assert dino == old(dino)[i := ino[i]];
        OneInode(sb, old(dino), i, ino[i], logged);
      }
      ref' := ref - 1;
    }
  }

  /** Of the blocks that changed, all but those in `but` have been passed to log_write. */
  ghost predicate Covered(b0: seq<Block>, l0: set<nat>, b1: seq<Block>, l1: set<nat>, but: set<nat>) {
    |b1| == |b0| && l0 <= l1 && forall c :: 0 <= c < |b0| && b1[c] != b0[c] ==> c in l1 || c in but
  }

  lemma CoveredTrans(b0: seq<Block>, l0: set<nat>, b1: seq<Block>, l1: set<nat>, b2: seq<Block>, l2: set<nat>,
                     but: set<nat>)
    requires Covered(b0, l0, b1, l1, {}) && Covered(b1, l1, b2, l2, but)
    ensures Covered(b0, l0, b2, l2, but)
  {
  }

  lemma CoveredMore(b0: seq<Block>, l0: set<nat>, b1: seq<Block>, l1: set<nat>, l2: set<nat>, but: set<nat>)
    requires Covered(b0, l0, b1, l1, but) && l1 <= l2
    ensures Covered(b0, l0, b1, l2, but)
  {
  }

  lemma CoveredNone(b: seq<Block>, l: set<nat>)
    ensures Covered(b, l, b, l, {})
  {
  }

  /** So have the inode blocks of the inodes whose copy on disk changed. */
  ghost predicate InodesCovered(sb: Superblock, d0: seq<Inode>, d1: seq<Inode>, logged: set<nat>) {
    |d1| == |d0| && forall j :: 0 <= j < |d0| && d1[j] != d0[j] ==> sb.Iblock(j) in logged
  }

  lemma OneInode(sb: Superblock, dino: seq<Inode>, i: nat, n: Inode, logged: set<nat>)
    requires i < |dino| && sb.Iblock(i) in logged
    ensures InodesCovered(sb, dino, dino[i := n], logged)
  {
  }

  lemma NoInode(sb: Superblock, dino: seq<Inode>, logged: set<nat>)
    ensures InodesCovered(sb, dino, dino, logged)
  {
  }

  /** With inode i written back, the copies on disk are up to date again. */
  lemma Synced(blocks: seq<Block>, ino: seq<Inode>, blocks': seq<Block>, ino': seq<Inode>, i: nat)
    requires SameOthers(blocks, ino, blocks', ino', i) && i < |ino|
    ensures |ino'| == |ino| && ino[i := ino'[i]] == ino'
  {
    hide ByteAt;
  }

  ghost predicate NoAddrs(addrs: seq<nat>) {
    forall k :: 0 <= k <= NDIRECT ==> k < |addrs| && addrs[k] == 0
  }

  /** Inode i gave up blocks; nothing else changed hands. */
  ghost predicate Shrunk(owner: Owner, owner': Owner, i: nat) {
    && (forall b :: b in owner' ==> b in owner && owner'[b] == owner[b])
    && (forall b :: b in owner && owner[b].0 != i ==> b in owner')
  }

  lemma OwnedBy(sb: Superblock, blocks: seq<Block>, ino: seq<Inode>, owner: Owner, i: nat, k: nat)
    requires Own(sb, blocks, ino, owner, {}) && i < |ino| && k <= NDIRECT && InodeOk(blocks, ino[i])
             && ino[i].addrs[k] != 0
    ensures ino[i].addrs[k] in owner && owner[ino[i].addrs[k]] == (i, k)
  {
    hide BitmapIs;
    assert Ptr(blocks, ino[i], k) == ino[i].addrs[k];
  }

  lemma HeldBy(sb: Superblock, blocks: seq<Block>, ino: seq<Inode>, owner: Owner, i: nat)
    requires Own(sb, blocks, ino, owner, {}) && i < |ino| && InodeOk(blocks, ino[i])
    ensures Shrunk(owner, owner - Held(blocks, ino[i], NDIRECT), i)
  {
    hide BitmapIs;
    hide Ptr;
    HeldIs(blocks, ino[i], NDIRECT);
  }

  /** An inode all of whose addresses are 0 owns nothing. */
  lemma OwnsNothing(sb: Superblock, blocks: seq<Block>, ino: seq<Inode>, owner: Owner, i: nat)
    requires Own(sb, blocks, ino, owner, {}) && i < |ino| && InodeOk(blocks, ino[i])
    requires NoAddrs(ino[i].addrs)
    ensures forall b :: b in owner ==> owner[b].0 != i
    ensures forall o :: 0 <= o < MAXFILE * BSIZE ==> ByteAt(blocks, ino[i], o) == 0
  {
    hide BitmapIs;
    forall b | b in owner
      ensures owner[b].0 != i
    {
      assert OwnedAt(sb, blocks, ino, b, owner[b]);
    }
  }

  lemma HeldStep(blocks: seq<Block>, n: Inode, k: nat)
    requires InodeOk(blocks, n) && k <= SLOTS
    ensures k == SLOTS ==> Held(blocks, n, k) == {}
    ensures k < SLOTS ==>
              Held(blocks, n, k) == Held(blocks, n, k + 1) +
                  (if Ptr(blocks, n, k) == 0 then {} else {Ptr(blocks, n, k)})
  {
    hide Ptr;
  }

  lemma HeldNone(blocks: seq<Block>, n: Inode)
    requires InodeOk(blocks, n) && n.addrs[NDIRECT] == 0
    ensures Held(blocks, n, NDIRECT) == {}
  {
    HeldIs(blocks, n, NDIRECT);
  }

  /** The indirect block and its entries are distinct blocks. */
  lemma HeldAll(sb: Superblock, blocks: seq<Block>, ino: seq<Inode>, owner: Owner, i: nat)
    requires Own(sb, blocks, ino, owner, {}) && i < |ino| && InodeOk(blocks, ino[i]) && ino[i].addrs[NDIRECT] != 0
    ensures var n := ino[i];
            var ind := n.addrs[NDIRECT];
            && Held(blocks, n, NDIRECT) == Held(blocks, n, NDIRECT + 1) + {ind}
            && forall k :: NDIRECT < k < SLOTS && Ptr(blocks, n, k) != 0 ==>
                 Ptr(blocks, n, k) != ind && Ptr(blocks, n, k) !in Held(blocks, n, k + 1)
  {
    hide BitmapIs;
    hide Word;
    var n := ino[i];
    assert Ptr(blocks, n, NDIRECT) == n.addrs[NDIRECT];
    forall k, l | NDIRECT <= k < l < SLOTS && Ptr(blocks, n, k) != 0
      ensures Ptr(blocks, n, k) != Ptr(blocks, n, l)
    {
      assert owner[Ptr(blocks, n, k)] == (i, k);
    }
    forall k | NDIRECT < k < SLOTS && Ptr(blocks, n, k) != 0
      ensures Ptr(blocks, n, k) !in Held(blocks, n, k + 1)
    {
      HeldIs(blocks, n, k + 1);
    }
  }

  /** Addresses in inodes are disk blocks. */
  lemma OwnRange(sb: Superblock, blocks: seq<Block>, ino: seq<Inode>, owner: Owner)
    requires Own(sb, blocks, ino, owner, {})
    ensures forall i, k :: 0 <= i < |ino| && 0 <= k <= NDIRECT ==> InodeOk(blocks, ino[i]) && ino[i].addrs[k] < sb.size
    ensures 0 !in owner
  {
    hide BitmapIs;
    assert 0 in owner ==> OwnedAt(sb, blocks, ino, 0, owner[0]);
    forall i, k | 0 <= i < |ino| && 0 <= k <= NDIRECT
      ensures InodeOk(blocks, ino[i]) && ino[i].addrs[k] < sb.size
    {
      var b := Ptr(blocks, ino[i], k);
      assert b != 0 ==> OwnedAt(sb, blocks, ino, b, owner[b]);
    }
  }

  lemma SameOthersTrans(a: seq<Block>, p: seq<Inode>, b: seq<Block>, q: seq<Inode>, c: seq<Block>, r: seq<Inode>,
                        i: nat)
    requires SameOthers(a, p, b, q, i) && SameOthers(b, q, c, r, i)
    ensures SameOthers(a, p, c, r, i)
  {
    hide ByteAt;
    forall j, o | 0 <= j < |p| && j != i && 0 <= o < MAXFILE * BSIZE
      ensures ByteAt(c, r[j], o) == ByteAt(a, p[j], o)
    {
      assert ByteAt(b, q[j], o) == ByteAt(a, p[j], o);
    }
  }

  lemma SameBytesOthers(a: seq<Block>, b: seq<Block>, q: seq<Inode>, i: nat)
    requires SameBytes(a, q, b, q)
    ensures SameOthers(a, q, b, q, i)
  {
    hide ByteAt;
  }

  lemma IndirectBlock(sb: Superblock, blocks: seq<Block>, ino: seq<Inode>, owner: Owner, i: nat)
    requires Own(sb, blocks, ino, owner, {}) && i < |ino| && InodeOk(blocks, ino[i]) && ino[i].addrs[NDIRECT] != 0
    ensures sb.data <= ino[i].addrs[NDIRECT] < sb.size && Used(sb, blocks, ino[i].addrs[NDIRECT])
  {
    assert Ptr(blocks, ino[i], NDIRECT) == ino[i].addrs[NDIRECT];
    assert OwnedAt(sb, blocks, ino, ino[i].addrs[NDIRECT], (i, NDIRECT));
  }

  lemma BitIndex(q: nat, bi: nat)
    requires bi < BPB
    ensures (q * 8192 + bi) / BPB == q && (q * 8192 + bi) % BPB == bi
  {
  }

  ghost function NonZero(b: nat): (r: set<nat>) {
    if b == 0 then {} else {b}
  }

  /** The bitmap blocks. */
  ghost function BitmapBlocks(sb: Superblock): (r: set<nat>) {
    Interval(sb.bmapstart, sb.size / BPB + (if sb.size % BPB == 0 then 0 else 1))
  }

  lemma BitmapBlockOf(sb: Superblock, b: nat)
    requires b < sb.size
    ensures sb.Bblock(b) in BitmapBlocks(sb)
  {
  }

  lemma SlotHeld(sb: Superblock, blocks: seq<Block>, ino: seq<Inode>, owner: Owner, i: nat, k: nat, addr: nat)
    requires Own(sb, blocks, ino, owner, {}) && i < |ino| && k < SLOTS && InodeOk(blocks, ino[i])
             && addr == Ptr(blocks, ino[i], k)
    ensures if addr != 0 then Filled(owner, owner, i, {k}) else k !in HeldSlots(owner, i)
  {
    hide Own;
    hide Slots;
    SlotIs(sb, blocks, ino, owner, {}, i, k);
    if addr != 0 {
      FilledNone(owner, i, {k});
    }
  }

  lemma DirectHeld(sb: Superblock, blocks: seq<Block>, ino: seq<Inode>, owner: Owner, i: nat, k: nat)
    requires Own(sb, blocks, ino, owner, {}) && i < |ino| && k <= NDIRECT && InodeOk(blocks, ino[i])
    ensures if ino[i].addrs[k] != 0 then Filled(owner, owner, i, {k}) else k !in HeldSlots(owner, i)
  {
    hide Own;
    hide Filled;
    hide HeldSlots;
    SlotHeld(sb, blocks, ino, owner, i, k, ino[i].addrs[k]);
  }

  lemma AllUsedIs(sb: Superblock, blocks: seq<Block>, b: nat)
    requires sb.Valid() && |blocks| == sb.size && b <= sb.size && (b < sb.size ==> !Used(sb, blocks, b))
    requires forall c :: 0 <= c < b ==> Used(sb, blocks, c)
    ensures AllUsed(sb, blocks) <==> b == sb.size
  {
    hide Used;
  }

  lemma FreshBlock(sb: Superblock, blocks: seq<Block>, ino: seq<Inode>, owner: Owner, b: nat)
    requires Own(sb, blocks, ino, owner, {b})
    ensures b !in owner
  {
  }

  /** Inode i may have gained blocks; nothing else changed hands. */
  ghost predicate Grown(ino: seq<Inode>, owner: Owner, ino': seq<Inode>, owner': Owner, i: nat) {
    && |ino'| == |ino| && i < |ino|
    && (forall j :: 0 <= j < |ino| && j != i ==> ino'[j] == ino[j])
    && ino'[i] == ino[i].(addrs := ino'[i].addrs)
    && (forall b :: b in owner ==> b in owner' && owner'[b] == owner[b])
  }

  lemma SameBytesTrans(a: seq<Block>, p: seq<Inode>, b: seq<Block>, q: seq<Inode>, c: seq<Block>, r: seq<Inode>)
    requires SameBytes(a, p, b, q) && SameBytes(b, q, c, r)
    ensures SameBytes(a, p, c, r)
  {
    hide ByteAt;
    forall i, o | 0 <= i < |p| && 0 <= o < MAXFILE * BSIZE
      ensures ByteAt(c, r[i], o) == ByteAt(a, p[i], o)
    {
      assert ByteAt(b, q[i], o) == ByteAt(a, p[i], o);
    }
  }
}
