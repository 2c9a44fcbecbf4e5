/** How many blocks a file operation needs and how many there are: bmap allocates
    for every slot that it comes to and finds empty, until no block is free. */
module Demand {
  import opened Base
  import opened Blocks
  import opened FsLayout
  import opened Ownership

  /** The blocks that are free. */
  ghost function FreeBlocks(sb: Superblock, blocks: seq<Block>): (r: set<nat>)
    requires sb.Valid() && |blocks| == sb.size
  {
    set c: nat | c < sb.size && !Used(sb, blocks, c)
  }

  /** How many there are. */
  ghost function Room(sb: Superblock, blocks: seq<Block>): (r: nat)
    requires sb.Valid() && |blocks| == sb.size
  {
    |FreeBlocks(sb, blocks)|
  }

  /** bmap of one of the blocks lo .. hi of a file comes to slot k: the block's own
      slot, or the indirect block's. */
  predicate Seeks(k: nat, lo: nat, hi: nat) {
    lo < hi && if k < NDIRECT then lo <= k < hi else if k == NDIRECT then NDIRECT < hi else lo <= k - 1 < hi
  }

  ghost function Sought(lo: nat, hi: nat): (r: set<nat>)
    ensures forall k :: k in r ==> k < SLOTS
  {
    set k: nat | k < SLOTS && Seeks(k, lo, hi)
  }

  /** Those of them that are empty. */
  ghost function Empty(blocks: seq<Block>, n: Inode, ks: set<nat>): (r: set<nat>)
    requires InodeOk(blocks, n) && forall k :: k in ks ==> k < SLOTS
  {
    set k | k in ks && Ptr(blocks, n, k) == 0
  }

  /** How many blocks it takes to fill them. */
  ghost function Needed(blocks: seq<Block>, n: Inode, lo: nat, hi: nat): (r: nat)
    requires InodeOk(blocks, n)
  {
    |Empty(blocks, n, Sought(lo, hi))|
  }

  /** The slots of inode i that hold a block, by the owner map. */
  ghost function HeldSlots(owner: Owner, i: nat): (r: set<nat>) {
    set k: nat | k < SLOTS && (i, k) in Slots(owner)
  }

  lemma EmptyIs(sb: Superblock, blocks: seq<Block>, ino: seq<Inode>, owner: Owner, i: nat, ks: set<nat>)
    requires Own(sb, blocks, ino, owner, {}) && i < |ino| && forall k :: k in ks ==> k < SLOTS
    ensures InodeOk(blocks, ino[i]) && Empty(blocks, ino[i], ks) == ks - HeldSlots(owner, i)
  {
    hide Own;
    hide Slots;
    hide Ptr;
    SlotIs(sb, blocks, ino, owner, {}, i, 0);
    forall k | k in ks
      ensures k in Empty(blocks, ino[i], ks) <==> k !in HeldSlots(owner, i)
    {
      SlotIs(sb, blocks, ino, owner, {}, i, k);
    }
  }

  /** Free blocks are the data blocks that no slot owns. */
  lemma RoomIs(sb: Superblock, blocks: seq<Block>, ino: seq<Inode>, owner: Owner)
    requires Own(sb, blocks, ino, owner, {})
    ensures |owner| <= sb.size - sb.data && Room(sb, blocks) == sb.size - sb.data - |owner|
    ensures Room(sb, blocks) == 0 <==> AllUsed(sb, blocks)
  {
    hide Ptr;
    hide Used;
    var all := Interval(sb.data, sb.size - sb.data);
    forall b | b in owner
      ensures b in all
    {
      assert OwnedAt(sb, blocks, ino, b, owner[b]);
    }
    assert FreeBlocks(sb, blocks) == all - owner.Keys;
    SubsetCount(owner.Keys, all);
    if Room(sb, blocks) == 0 {
      forall c | 0 <= c < sb.size
        ensures Used(sb, blocks, c)
      {
        assert c !in FreeBlocks(sb, blocks);
      }
    } else {
      var c :| c in FreeBlocks(sb, blocks);
    }
  }

  /** Slots ks of inode i hold blocks now, new ones where there were none, and no
      other slot of it changed. */
  ghost predicate Filled(owner: Owner, owner': Owner, i: nat, ks: set<nat>) {
    HeldSlots(owner', i) == HeldSlots(owner, i) + ks && |owner'| == |owner| + |ks - HeldSlots(owner, i)|
  }

  lemma FilledNone(owner: Owner, i: nat, ks: set<nat>)
    requires ks <= HeldSlots(owner, i)
    ensures Filled(owner, owner, i, ks)
  {
    hide HeldSlots;
    assert ks - HeldSlots(owner, i) == {};
  }

  lemma FilledOne(owner: Owner, b: nat, i: nat, k: nat)
    requires b !in owner && k < SLOTS && k !in HeldSlots(owner, i)
    ensures Filled(owner, owner[b := (i, k)], i, {k})
  {
    hide Slots;
    ValuesMore(owner, b, (i, k));
    assert {k} - HeldSlots(owner, i) == {k};
  }

  lemma Split(had: set<nat>, ks: set<nat>, js: set<nat>)
    ensures |(ks + js) - had| == |ks - had| + |js - (had + ks)|
  {
    assert (ks + js) - had == (ks - had) + (js - (had + ks));
  }

  lemma One(had: set<nat>, k: nat)
    ensures |{k} - had| == if k in had then 0 else 1
  {
    assert {k} - had == if k in had then {} else {k};
  }

  lemma FilledTrans(a: Owner, b: Owner, c: Owner, i: nat, ks: set<nat>, js: set<nat>)
    requires Filled(a, b, i, ks) && Filled(b, c, i, js)
    ensures Filled(a, c, i, ks + js)
  {
    hide HeldSlots;
    Split(HeldSlots(a, i), ks, js);
  }

  lemma SoughtNone(lo: nat)
    ensures Sought(lo, lo) == {}
  {
  }

  lemma SoughtMore(lo: nat, bn: nat)
    requires lo <= bn < MAXFILE
    ensures Sought(lo, bn + 1) == Sought(lo, bn) + Sought(bn, bn + 1)
    ensures Sought(bn, bn + 1) == if bn < NDIRECT then {bn} else {NDIRECT, SlotOf(bn)}
  {
  }

  lemma SoughtGrows(lo: nat, mid: nat, hi: nat)
    requires lo <= mid <= hi <= MAXFILE
    ensures Sought(lo, mid) <= Sought(lo, hi)
  {
  }

  lemma NeededGrows(blocks: seq<Block>, n: Inode, lo: nat, mid: nat, hi: nat)
    requires InodeOk(blocks, n) && lo <= mid <= hi <= MAXFILE
    ensures Needed(blocks, n, lo, mid) <= Needed(blocks, n, lo, hi)
  {
    hide Sought;
    hide Ptr;
    SoughtGrows(lo, mid, hi);
    SubsetCount(Empty(blocks, n, Sought(lo, mid)), Empty(blocks, n, Sought(lo, hi)));
  }

  /** bmap of block bn of inode i: it succeeds exactly when there are blocks for the
      slots it comes to and finds empty, and then they are filled; when it fails,
      no block is left, and the last one may have become the indirect block. */
  ghost predicate Served(sb: Superblock, owner: Owner, owner': Owner, i: nat, bn: nat, ok: bool) {
    && (ok <==> |Sought(bn, bn + 1) - HeldSlots(owner, i)| + |owner| <= sb.size - sb.data)
    && (if ok then Filled(owner, owner', i, Sought(bn, bn + 1)) else |owner'| == sb.size - sb.data)
    && (!ok && bn >= NDIRECT && |owner| < sb.size - sb.data ==> NDIRECT in HeldSlots(owner', i))
    && HeldSlots(owner', i) <= HeldSlots(owner, i) + Sought(bn, bn + 1)
  }

  /** There is a block free for an empty slot that bmap of block bn comes to. */
  ghost predicate Fills(sb: Superblock, owner: Owner, i: nat, bn: nat) {
    |owner| < sb.size - sb.data && !(Sought(bn, bn + 1) <= HeldSlots(owner, i))
  }

  lemma FillsDirect(sb: Superblock, blocks: seq<Block>, ino: seq<Inode>, owner: Owner, i: nat, bn: nat)
    requires Own(sb, blocks, ino, owner, {}) && i < |ino| && bn < NDIRECT
    ensures InodeOk(blocks, ino[i])
    ensures Fills(sb, owner, i, bn) <==> !AllUsed(sb, blocks) && ino[i].addrs[bn] == 0
  {
    hide Own;
    hide Slots;
    hide AllUsed;
    RoomIs(sb, blocks, ino, owner);
    SoughtMore(bn, bn);
    SlotIs(sb, blocks, ino, owner, {}, i, bn);
  }

  lemma FillsIndirect(sb: Superblock, blocks: seq<Block>, ino: seq<Inode>, owner: Owner, i: nat, bn: nat)
    requires Own(sb, blocks, ino, owner, {}) && i < |ino| && NDIRECT <= bn < MAXFILE
    ensures InodeOk(blocks, ino[i])
    ensures Fills(sb, owner, i, bn) <==>
              !AllUsed(sb, blocks) && (ino[i].addrs[NDIRECT] == 0 || Ptr(blocks, ino[i], SlotOf(bn)) == 0)
  {
    hide Own;
    hide Slots;
    hide AllUsed;
    hide Word;
    RoomIs(sb, blocks, ino, owner);
    SoughtMore(bn, bn);
    SlotIs(sb, blocks, ino, owner, {}, i, NDIRECT);
    SlotIs(sb, blocks, ino, owner, {}, i, SlotOf(bn));
  }

  /** The same of the blocks lo .. bn, one after the other. */
  lemma ServedNext(sb: Superblock, a: Owner, b: Owner, c: Owner, i: nat, lo: nat, bn: nat, ok: bool)
    requires lo <= bn < MAXFILE && Filled(a, b, i, Sought(lo, bn)) && Served(sb, b, c, i, bn, ok)
    ensures ok <==> |Sought(lo, bn + 1) - HeldSlots(a, i)| + |a| <= sb.size - sb.data
    ensures ok ==> Filled(a, c, i, Sought(lo, bn + 1))
  {
    hide HeldSlots;
    hide Sought;
    SoughtMore(lo, bn);
    Split(HeldSlots(a, i), Sought(lo, bn), Sought(bn, bn + 1));
    if ok {
      FilledTrans(a, b, c, i, Sought(lo, bn), Sought(bn, bn + 1));
    }
  }

  /** A direct block. */
  lemma ServedDirect(sb: Superblock, a: Owner, b: Owner, i: nat, bn: nat, ok: bool)
    requires bn < NDIRECT && |a| <= sb.size - sb.data
    requires if ok then Filled(a, b, i, {bn}) && |b| <= sb.size - sb.data
             else b == a && |a| == sb.size - sb.data && bn !in HeldSlots(a, i)
    ensures Served(sb, a, b, i, bn, ok)
  {
    hide HeldSlots;
    hide Sought;
    SoughtMore(bn, bn);
    One(HeldSlots(a, i), bn);
  }

  lemma SoughtPair(had: set<nat>, bn: nat)
    requires NDIRECT <= bn < MAXFILE
    ensures Sought(bn, bn + 1) == {NDIRECT} + {SlotOf(bn)}
    ensures |Sought(bn, bn + 1) - had| == (if NDIRECT in had then 0 else 1) + (if SlotOf(bn) in had then 0 else 1)
  {
    hide Sought;
    SoughtMore(bn, bn);
    Pair(NDIRECT, SlotOf(bn));
    Split(had, {NDIRECT}, {SlotOf(bn)});
    One(had, NDIRECT);
    One(had + {NDIRECT}, SlotOf(bn));
  }

  /** An indirect one: first the indirect block, then the entry. */
  lemma ServedIndirect(sb: Superblock, a: Owner, b: Owner, c: Owner, i: nat, bn: nat)
    requires NDIRECT <= bn < MAXFILE && Filled(a, b, i, {NDIRECT}) && Filled(b, c, i, {SlotOf(bn)})
             && |c| <= sb.size - sb.data
    ensures Served(sb, a, c, i, bn, true)
  {
    hide HeldSlots;
    hide Sought;
    SoughtPair(HeldSlots(a, i), bn);
    One(HeldSlots(a, i), NDIRECT);
    One(HeldSlots(b, i), SlotOf(bn));
    FilledTrans(a, b, c, i, {NDIRECT}, {SlotOf(bn)});
  }

  /** The disk is full after the indirect block, */
  lemma ServedHalf(sb: Superblock, a: Owner, b: Owner, i: nat, bn: nat)
    requires NDIRECT <= bn < MAXFILE && Filled(a, b, i, {NDIRECT}) && |b| == sb.size - sb.data
             && SlotOf(bn) !in HeldSlots(b, i)
    ensures Served(sb, a, b, i, bn, false)
  {
    hide HeldSlots;
    hide Sought;
    SoughtPair(HeldSlots(a, i), bn);
    One(HeldSlots(a, i), NDIRECT);
  }

  /** or before it. */
  lemma ServedNot(sb: Superblock, a: Owner, i: nat, bn: nat)
    requires NDIRECT <= bn < MAXFILE && |a| == sb.size - sb.data && NDIRECT !in HeldSlots(a, i)
    ensures Served(sb, a, a, i, bn, false)
  {
    hide HeldSlots;
    hide Sought;
    SoughtPair(HeldSlots(a, i), bn);
  }

  lemma Pair(a: nat, b: nat)
    ensures {a} + {b} == {a, b}
  {
  }

  /** An inode has changed exactly if one of its own slots was filled. */
  lemma InodeSame(sb: Superblock, blocks: seq<Block>, ino: seq<Inode>, owner: Owner,
                  blocks': seq<Block>, ino': seq<Inode>, owner': Owner, i: nat)
    requires Own(sb, blocks, ino, owner, {}) && Own(sb, blocks', ino', owner', {}) && |ino'| == |ino| && i < |ino|
    requires forall j :: 0 <= j < |ino| && j != i ==> ino'[j] == ino[j]
    requires ino'[i] == ino[i].(addrs := ino'[i].addrs) && forall b :: b in owner ==>
               b in owner' && owner'[b] == owner[b]
    ensures ino' == ino <==> forall k: nat :: k <= NDIRECT && k in HeldSlots(owner', i) ==> k in HeldSlots(owner, i)
  {
    hide Slots;
    hide BitmapIs;
    hide Word;
    forall k: nat | k <= NDIRECT
      ensures ino'[i].addrs[k] == ino[i].addrs[k] <==> (k in HeldSlots(owner', i) ==> k in HeldSlots(owner, i))
    {
      SlotIs(sb, blocks, ino, owner, {}, i, k);
      SlotIs(sb, blocks', ino', owner', {}, i, k);
      var b := ino[i].addrs[k];
      if b != 0 {
        assert Ptr(blocks, ino[i], k) == b;
        assert OwnedAt(sb, blocks', ino', b, owner'[b]);
      }
    }
    assert ino' == ino <==> ino'[i].addrs == ino[i].addrs;
  }

  lemma NeededIs(sb: Superblock, blocks: seq<Block>, ino: seq<Inode>, owner: Owner, i: nat, lo: nat, hi: nat)
    requires Own(sb, blocks, ino, owner, {}) && i < |ino|
    ensures InodeOk(blocks, ino[i]) && Needed(blocks, ino[i], lo, hi) == |Sought(lo, hi) - HeldSlots(owner, i)|
    ensures |owner| <= sb.size - sb.data && Room(sb, blocks) == sb.size - sb.data - |owner|
  {
    hide Own;
    hide Sought;
    hide HeldSlots;
    hide Empty;
    EmptyIs(sb, blocks, ino, owner, i, Sought(lo, hi));
    RoomIs(sb, blocks, ino, owner);
  }

  /** The loop over the blocks lo .. stopped at bn: if there was a block at all, and
      one of the inode's own slots to be looked up was empty, one of them was filled. */
  lemma StoppedFills(sb: Superblock, a: Owner, b: Owner, c: Owner, i: nat, lo: nat, bn: nat, hi: nat, k: nat)
    requires lo <= bn < hi <= MAXFILE && Filled(a, b, i, Sought(lo, bn)) && Served(sb, b, c, i, bn, false)
             && |a| < sb.size - sb.data
    requires k <= NDIRECT && Seeks(k, lo, hi) && k !in HeldSlots(a, i) && forall j :: j in HeldSlots(b, i) ==>
               j in HeldSlots(c, i)
    ensures exists j: nat :: j <= NDIRECT && j in HeldSlots(c, i) && j !in HeldSlots(a, i)
  {
    hide HeldSlots;
    if k in Sought(lo, bn) {
      assert k in HeldSlots(c, i);
    } else if j :| j in Sought(lo, bn) && j !in HeldSlots(a, i) && j <= NDIRECT {
      assert j in HeldSlots(c, i);
    } else {
      assert Sought(lo, bn) - HeldSlots(a, i) == {} by {
        assert lo < bn ==> bn <= NDIRECT;
      }
      SoughtMore(bn, bn);
      if bn < NDIRECT {
        One(HeldSlots(b, i), bn);
        assert false;
      }
    }
  }
}
