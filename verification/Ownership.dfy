/** Which inode slot owns each disk block, and what the elementary updates of
    kernel/fs.c do to that and to the contents of files. */
module Ownership {
  import opened Base
  import opened Blocks
  import opened FsLayout

  type Owner = map<nat, (nat, nat)>

  /** Every block number stored in an inode or indirect block is recorded with
      exactly that inode and slot, so no block is stored twice. */
  ghost predicate PtrsOwned(sb: Superblock, blocks: seq<Block>, ino: seq<Inode>, owner: Owner) {
    && |blocks| == sb.size
    && (forall i :: 0 <= i < |ino| ==> InodeOk(blocks, ino[i]))
    && (forall i, k :: 0 <= i < |ino| && 0 <= k < SLOTS && Ptr(blocks, ino[i], k) != 0 ==>
          Ptr(blocks, ino[i], k) in owner && owner[Ptr(blocks, ino[i], k)] == (i, k))
    && (forall b :: b in owner ==> OwnedAt(sb, blocks, ino, b, owner[b]))
  }

  ghost predicate OwnedAt(sb: Superblock, blocks: seq<Block>, ino: seq<Inode>, b: nat, at: (nat, nat)) {
    && sb.data <= b < sb.size && at.0 < |ino| && at.1 < SLOTS
    && InodeOk(blocks, ino[at.0]) && Ptr(blocks, ino[at.0], at.1) == b
  }

  /** The bitmap marks the metadata, the owned blocks and the loose ones: blocks
      on their way into or out of a file. */
  ghost predicate BitmapIs(sb: Superblock, blocks: seq<Block>, owner: Owner, loose: set<nat>)
    requires sb.Valid() && |blocks| == sb.size
  {
    forall b :: 0 <= b < sb.size ==> (Used(sb, blocks, b) <==> b < sb.data || b in owner || b in loose)
  }

  ghost predicate Own(sb: Superblock, blocks: seq<Block>, ino: seq<Inode>, owner: Owner, loose: set<nat>) {
    && sb.Valid() && |blocks| == sb.size
    && PtrsOwned(sb, blocks, ino, owner)
    && BitmapIs(sb, blocks, owner, loose)
    && (forall b :: b in loose ==> sb.data <= b < sb.size && b !in owner)
  }

  /** Two states in which every file reads the same. */
  ghost predicate SameBytes(blocks: seq<Block>, ino: seq<Inode>, blocks': seq<Block>, ino': seq<Inode>) {
    && |ino| == |ino'|
    && (forall i :: 0 <= i < |ino| ==> InodeOk(blocks, ino[i]) && InodeOk(blocks', ino'[i]))
    && (forall i, o :: 0 <= i < |ino| && 0 <= o < MAXFILE * BSIZE ==>
          ByteAt(blocks', ino'[i], o) == ByteAt(blocks, ino[i], o))
  }

  /** The slots that hold a block. */
  ghost function Slots(owner: Owner): (r: set<(nat, nat)>) {
    owner.Values
  }

  /** Slot k of inode i holds a block exactly when a block is owned there. */
  lemma SlotIs(sb: Superblock, blocks: seq<Block>, ino: seq<Inode>, owner: Owner, loose: set<nat>, i: nat, k: nat)
    requires Own(sb, blocks, ino, owner, loose) && i < |ino| && k < SLOTS
    ensures InodeOk(blocks, ino[i]) && (Ptr(blocks, ino[i], k) != 0 <==> (i, k) in Slots(owner))
  {
    hide Ptr;
    hide BitmapIs;
    if (i, k) in owner.Values {
      var b :| b in owner && owner[b] == (i, k);
      assert OwnedAt(sb, blocks, ino, b, owner[b]);
    }
  }

  /** Slot `at` holds a block now, if it did not before. */
  ghost predicate SlotAdded(owner: Owner, owner': Owner, at: (nat, nat)) {
    Slots(owner') == Slots(owner) + {at}
  }

  lemma SlotThere(sb: Superblock, blocks: seq<Block>, ino: seq<Inode>, owner: Owner, loose: set<nat>, i: nat, k: nat)
    requires Own(sb, blocks, ino, owner, loose) && i < |ino| && k < SLOTS && InodeOk(blocks, ino[i])
             && Ptr(blocks, ino[i], k) != 0
    ensures SlotAdded(owner, owner, (i, k))
  {
    hide Own;
    hide Slots;
    SlotIs(sb, blocks, ino, owner, loose, i, k);
  }

  /** A block more in a new slot. */
  lemma ValuesMore(owner: Owner, b: nat, at: (nat, nat))
    requires b !in owner
    ensures SlotAdded(owner, owner[b := at], at) && |owner[b := at]| == |owner| + 1
  {
    var more := owner[b := at];
    assert more.Keys == owner.Keys + {b};
    forall x | x in owner.Values
      ensures x in more.Values
    {
      var c :| c in owner && owner[c] == x;
      assert more[c] == x;
    }
    assert more[b] == at;
  }

  lemma OwnShape(sb: Superblock, blocks: seq<Block>, ino: seq<Inode>, owner: Owner, loose: set<nat>)
    requires Own(sb, blocks, ino, owner, loose)
    ensures sb.Valid() && |blocks| == sb.size
    ensures forall i :: 0 <= i < |ino| ==> InodeOk(blocks, ino[i])
    ensures SameBytes(blocks, ino, blocks, ino)
  {
    hide BitmapIs;
  }

  lemma PtrSame(blocks: seq<Block>, blocks': seq<Block>, n: Inode, k: nat)
    requires InodeOk(blocks, n) && |blocks'| == |blocks| && k < SLOTS
    requires n.addrs[NDIRECT] != 0 ==> blocks'[n.addrs[NDIRECT]] == blocks[n.addrs[NDIRECT]]
    ensures Ptr(blocks', n, k) == Ptr(blocks, n, k)
  {
  }

  /** Blocks no slot points to do not matter to any file. */
  lemma UnownedWrite(sb: Superblock, blocks: seq<Block>, ino: seq<Inode>, owner: Owner, b: nat, v: Block)
    requires PtrsOwned(sb, blocks, ino, owner) && b < sb.size && b !in owner
    ensures PtrsOwned(sb, blocks[b := v], ino, owner)
    ensures SameBytes(blocks, ino, blocks[b := v], ino)
  {
    hide Word;
    var blocks' := blocks[b := v];
    forall i, k | 0 <= i < |ino| && 0 <= k < SLOTS
      ensures Ptr(blocks', ino[i], k) == Ptr(blocks, ino[i], k)
              && (Ptr(blocks, ino[i], k) != 0 ==> Ptr(blocks, ino[i], k) != b)
    {
      var ind := Ptr(blocks, ino[i], NDIRECT);
      PtrSame(blocks, blocks', ino[i], k);
    }
  }

  /** balloc's and bfree's bit flip. */
  lemma FlipBit(sb: Superblock, blocks: seq<Block>, b: nat, on: bool)
    requires sb.Valid() && |blocks| == sb.size && b < sb.size
    ensures var m := sb.Bblock(b);
            && m < sb.data
            && forall c :: 0 <= c < sb.size ==>
                 (Used(sb, blocks[m := PutBlockBit(blocks[m], b % BPB, on)], c) <==>
                     if c == b then on else Used(sb, blocks, c))
  {
    hide PutBlockBit;
    hide BlockBit;
    var m := sb.Bblock(b);
    var blocks' := blocks[m := PutBlockBit(blocks[m], b % BPB, on)];
    forall c | 0 <= c < sb.size
      ensures Used(sb, blocks', c) <==> if c == b then on else Used(sb, blocks, c)
    {
      if sb.Bblock(c) == m {
        BlockBitOfPut(blocks[m], b % BPB, on, c % BPB);
      }
    }
  }

  lemma MarkBlock(sb: Superblock, blocks: seq<Block>, ino: seq<Inode>, owner: Owner, loose: set<nat>, b: nat)
    requires Own(sb, blocks, ino, owner, loose) && b < sb.size && !Used(sb, blocks, b)
    ensures var m := sb.Bblock(b);
            var blocks' := blocks[m := PutBlockBit(blocks[m], b % BPB, true)];
            && b >= sb.data && b !in owner && b !in loose
            && Own(sb, blocks', ino, owner, loose + {b}) && SameBytes(blocks, ino, blocks', ino)
  {
    hide PutBlockBit;
    hide Used;
    FlipBit(sb, blocks, b, true);
    var m := sb.Bblock(b);
    UnownedWrite(sb, blocks, ino, owner, m, PutBlockBit(blocks[m], b % BPB, true));
    var blocks' := blocks[m := PutBlockBit(blocks[m], b % BPB, true)];
    forall c | 0 <= c < sb.size
      ensures Used(sb, blocks', c) <==> c < sb.data || c in owner || c in loose + {b}
    {
      assert Used(sb, blocks', c) <==> c == b || Used(sb, blocks, c);
    }
  }

  lemma ClearBlock(sb: Superblock, blocks: seq<Block>, ino: seq<Inode>, owner: Owner, loose: set<nat>, b: nat)
    requires Own(sb, blocks, ino, owner, loose) && b in loose
    ensures var m := sb.Bblock(b);
            var blocks' := blocks[m := PutBlockBit(blocks[m], b % BPB, false)];
            && Used(sb, blocks, b)
            && Own(sb, blocks', ino, owner, loose - {b}) && SameBytes(blocks, ino, blocks', ino)
  {
    hide PutBlockBit;
    hide Used;
    FlipBit(sb, blocks, b, false);
    var m := sb.Bblock(b);
    UnownedWrite(sb, blocks, ino, owner, m, PutBlockBit(blocks[m], b % BPB, false));
    var blocks' := blocks[m := PutBlockBit(blocks[m], b % BPB, false)];
    forall c | 0 <= c < sb.size
      ensures Used(sb, blocks', c) <==> c < sb.data || c in owner || c in loose - {b}
    {
      assert Used(sb, blocks', c) <==> c != b && Used(sb, blocks, c);
    }
  }

  /** Writing a block that holds no bitmap bits leaves the bitmap alone. */
  lemma BitmapSame(sb: Superblock, blocks: seq<Block>, b: nat, v: Block, owner: Owner, loose: set<nat>)
    requires sb.Valid() && |blocks| == sb.size && sb.data <= b < sb.size
    ensures BitmapIs(sb, blocks, owner, loose) <==> BitmapIs(sb, blocks[b := v], owner, loose)
  {
    hide BlockBit;
    assert forall c :: 0 <= c < sb.size ==> (Used(sb, blocks[b := v], c) <==> Used(sb, blocks, c));
  }

  /** A block changing hands keeps its bit. */
  lemma BitmapMove(sb: Superblock, blocks: seq<Block>, owner: Owner, loose: set<nat>, owner': Owner, loose': set<nat>)
    requires sb.Valid() && |blocks| == sb.size && BitmapIs(sb, blocks, owner, loose)
    requires forall c :: c in owner || c in loose <==> c in owner' || c in loose'
    ensures BitmapIs(sb, blocks, owner', loose')
  {
    hide Used;
  }

  /** bzero of a block on its way into a file. */
  lemma LooseWrite(sb: Superblock, blocks: seq<Block>, ino: seq<Inode>, owner: Owner, loose: set<nat>, b: nat, v: Block)
    requires Own(sb, blocks, ino, owner, loose) && b in loose
    ensures Own(sb, blocks[b := v], ino, owner, loose) && SameBytes(blocks, ino, blocks[b := v], ino)
  {
    hide BitmapIs;
    hide Ptr;
    UnownedWrite(sb, blocks, ino, owner, b, v);
    BitmapSame(sb, blocks, b, v, owner, loose);
  }

  /** One slot goes from empty to a block nobody owns; all others stay. */
  lemma OwnerPut(sb: Superblock, blocks: seq<Block>, ino: seq<Inode>, owner: Owner,
                 blocks': seq<Block>, ino': seq<Inode>, i: nat, k: nat, b: nat)
    requires PtrsOwned(sb, blocks, ino, owner) && |ino'| == |ino| && |blocks'| == |blocks| && i < |ino| && k < SLOTS
    requires forall j :: 0 <= j < |ino| ==> InodeOk(blocks', ino'[j])
    requires forall j, q :: 0 <= j < |ino| && 0 <= q < SLOTS ==>
               Ptr(blocks', ino'[j], q) == if j == i && q == k then b else Ptr(blocks, ino[j], q)
    requires Ptr(blocks, ino[i], k) == 0 && 0 < sb.data <= b < sb.size && b !in owner
    ensures PtrsOwned(sb, blocks', ino', owner[b := (i, k)])
  {
    hide Ptr;
    var owner' := owner[b := (i, k)];
    forall c | c in owner'
      ensures OwnedAt(sb, blocks', ino', c, owner'[c])
    {
      if c != b {
        assert OwnedAt(sb, blocks, ino, c, owner[c]);
      }
    }
  }

  function SetAddr(n: Inode, k: nat, b: nat): (r: Inode)
    requires |n.addrs| == NDIRECT + 1 && k <= NDIRECT
  {
    n.(addrs := n.addrs[k := b])
  }

  lemma ZeroPtrs(blocks: seq<Block>, n: Inode, k: nat)
    requires InodeOk(blocks, n) && NDIRECT < k < SLOTS && blocks[n.addrs[NDIRECT]] == ZeroBlock
    ensures Ptr(blocks, n, k) == 0
  {
    WordOfZero(k - NDIRECT - 1);
  }

  /** What storing a fresh zeroed block in an empty inode slot does to the
      inode's own slots and bytes. */
  lemma AttachOne(blocks: seq<Block>, n: Inode, k: nat, b: nat)
    requires InodeOk(blocks, n) && k <= NDIRECT && n.addrs[k] == 0 && 0 < b < |blocks| && blocks[b] == ZeroBlock
    ensures InodeOk(blocks, SetAddr(n, k, b)) && Ptr(blocks, n, k) == 0
    ensures forall q :: 0 <= q < SLOTS ==> Ptr(blocks, SetAddr(n, k, b), q) == if q == k then b else Ptr(blocks, n, q)
    ensures forall o :: 0 <= o < MAXFILE * BSIZE ==> ByteAt(blocks, SetAddr(n, k, b), o) == ByteAt(blocks, n, o)
  {
    hide Word;
    var n' := SetAddr(n, k, b);
    forall q | 0 <= q < SLOTS
      ensures Ptr(blocks, n', q) == if q == k then b else Ptr(blocks, n, q)
    {
      if k == NDIRECT && q > NDIRECT {
        ZeroPtrs(blocks, n', q);
      }
    }
  }

  lemma AttachDirect(sb: Superblock, blocks: seq<Block>, ino: seq<Inode>, owner: Owner, loose: set<nat>, i: nat, k: nat,
                     b: nat)
    requires Own(sb, blocks, ino, owner, loose) && i < |ino| && k <= NDIRECT && ino[i].addrs[k] == 0
    requires b in loose && blocks[b] == ZeroBlock
    ensures var ino' := ino[i := SetAddr(ino[i], k, b)];
            Own(sb, blocks, ino', owner[b := (i, k)], loose - {b}) && SameBytes(blocks, ino, blocks, ino')
  {
    hide Ptr;
    hide BitmapIs;
    hide ByteAt;
    AttachOne(blocks, ino[i], k, b);
    OwnerPut(sb, blocks, ino, owner, blocks, ino[i := SetAddr(ino[i], k, b)], i, k, b);
    BitmapMove(sb, blocks, owner, loose, owner[b := (i, k)], loose - {b});
  }

  /** Other inodes do not see a write to a block they do not point to. */
  lemma OthersRead(blocks: seq<Block>, blocks': seq<Block>, ino: seq<Inode>, i: nat, b: nat)
    requires |blocks'| == |blocks| && b < |blocks| && blocks' == blocks[b := blocks'[b]]
    requires forall j :: 0 <= j < |ino| ==> InodeOk(blocks, ino[j]) && InodeOk(blocks', ino[j])
    requires forall j, q :: 0 <= j < |ino| && 0 <= q < SLOTS && j != i ==>
               Ptr(blocks', ino[j], q) == Ptr(blocks, ino[j], q)
                 && (Ptr(blocks, ino[j], q) != 0 ==> Ptr(blocks, ino[j], q) != b)
    ensures forall j, o :: 0 <= j < |ino| && 0 <= o < MAXFILE * BSIZE && j != i ==>
              ByteAt(blocks', ino[j], o) == ByteAt(blocks, ino[j], o)
  {
    hide Ptr;
  }

  /** Storing a fresh zeroed block in an empty entry of the indirect block. */
  lemma AttachEntryOne(blocks: seq<Block>, n: Inode, j: nat, b: nat)
    requires InodeOk(blocks, n) && j < NINDIRECT && n.addrs[NDIRECT] != 0 && Ptr(blocks, n, NDIRECT + 1 + j) == 0
    requires 0 < b < |blocks| <= 0x8000_0000 && blocks[b] == ZeroBlock && b != n.addrs[NDIRECT]
    requires forall q :: 0 <= q < SLOTS && q != NDIRECT ==> Ptr(blocks, n, q) != n.addrs[NDIRECT]
    ensures var ind := n.addrs[NDIRECT];
            var blocks' := blocks[ind := SetWord(blocks[ind], j, b)];
            && InodeOk(blocks', n)
            && (forall q :: 0 <= q < SLOTS ==>
                  Ptr(blocks', n, q) == if q == NDIRECT + 1 + j then b else Ptr(blocks, n, q))
            && (forall o :: 0 <= o < MAXFILE * BSIZE ==> ByteAt(blocks', n, o) == ByteAt(blocks, n, o))
  {
    hide Word;
    hide SetWord;
    var ind := n.addrs[NDIRECT];
    var blocks' := blocks[ind := SetWord(blocks[ind], j, b)];
    forall q | 0 <= q < SLOTS
      ensures Ptr(blocks', n, q) == if q == NDIRECT + 1 + j then b else Ptr(blocks, n, q)
    {
      if q > NDIRECT {
        WordOfSetWord(blocks[ind], j, b, q - NDIRECT - 1);
      }
    }
    forall o | 0 <= o < MAXFILE * BSIZE
      ensures ByteAt(blocks', n, o) == ByteAt(blocks, n, o)
    {
      assert Ptr(blocks, n, SlotOf(o / BSIZE)) != ind;
    }
  }

  lemma AttachEntry(sb: Superblock, blocks: seq<Block>, ino: seq<Inode>, owner: Owner, loose: set<nat>, i: nat, j: nat,
                    b: nat)
    requires Own(sb, blocks, ino, owner, loose) && i < |ino| && j < NINDIRECT && ino[i].addrs[NDIRECT] != 0
    requires Ptr(blocks, ino[i], NDIRECT + 1 + j) == 0 && b in loose && blocks[b] == ZeroBlock
    ensures var ind := ino[i].addrs[NDIRECT];
            var blocks' := blocks[ind := SetWord(blocks[ind], j, b)];
            && Own(sb, blocks', ino, owner[b := (i, NDIRECT + 1 + j)], loose - {b})
               && SameBytes(blocks, ino, blocks', ino)
  {
    hide Word;
    hide SetWord;
    hide BitmapIs;
    hide ByteAt;
    var ind := ino[i].addrs[NDIRECT];
    var v := SetWord(blocks[ind], j, b);
    var blocks' := blocks[ind := v];
    assert Ptr(blocks, ino[i], NDIRECT) == ind && owner[ind] == (i, NDIRECT);
    AttachEntryOne(blocks, ino[i], j, b);
    BitmapSame(sb, blocks, ind, v, owner, loose);
    BitmapMove(sb, blocks', owner, loose, owner[b := (i, NDIRECT + 1 + j)], loose - {b});
    forall i', q | 0 <= i' < |ino| && 0 <= q < SLOTS && i' != i
      ensures Ptr(blocks', ino[i'], q) == Ptr(blocks, ino[i'], q)
              && (Ptr(blocks, ino[i'], q) != 0 ==> Ptr(blocks, ino[i'], q) != ind)
    {
      assert Ptr(blocks, ino[i'], NDIRECT) != ind;
      PtrSame(blocks, blocks', ino[i'], q);
    }
    OthersRead(blocks, blocks', ino, i, ind);
    OwnerPut(sb, blocks, ino, owner, blocks', ino, i, NDIRECT + 1 + j, b);
  }

  // ---------- taking blocks out of files ----------

  /** Files other than i read the same. */
  ghost predicate SameOthers(blocks: seq<Block>, ino: seq<Inode>, blocks': seq<Block>, ino': seq<Inode>, i: nat) {
    && |ino| == |ino'|
    && (forall j :: 0 <= j < |ino| && j != i ==>
          InodeOk(blocks, ino[j]) && InodeOk(blocks', ino'[j]) && ino'[j] == ino[j]
          && forall o :: 0 <= o < MAXFILE * BSIZE ==> ByteAt(blocks', ino'[j], o) == ByteAt(blocks, ino[j], o))
  }

  /** The blocks of inode n in slots from `from` on. */
  ghost function Held(blocks: seq<Block>, n: Inode, from: nat): (r: set<nat>)
    requires InodeOk(blocks, n) && from <= SLOTS
    decreases SLOTS - from
  {
    if from == SLOTS then {}
    else
      var rest := Held(blocks, n, from + 1);
      if Ptr(blocks, n, from) == 0 then rest else rest + {Ptr(blocks, n, from)}
  }

  lemma {:induction false} HeldIs(blocks: seq<Block>, n: Inode, from: nat)
    requires InodeOk(blocks, n) && from <= SLOTS
    ensures forall b :: b in Held(blocks, n, from) <==>
              b != 0 && exists k :: from <= k < SLOTS && Ptr(blocks, n, k) == b
    decreases SLOTS - from
  {
    hide Ptr;
    if from < SLOTS {
      HeldIs(blocks, n, from + 1);
    }
  }

  /** Some slots of inode i become empty; their blocks become loose. */
  lemma OwnerDrop(sb: Superblock, blocks: seq<Block>, ino: seq<Inode>, owner: Owner, loose: set<nat>, ino': seq<Inode>,
                  i: nat, gone: set<nat>)
    requires Own(sb, blocks, ino, owner, loose) && i < |ino| && |ino'| == |ino|
    requires forall j :: 0 <= j < |ino| ==> InodeOk(blocks, ino'[j]) && (j != i ==> ino'[j] == ino[j])
    requires forall q :: 0 <= q < SLOTS ==>
               Ptr(blocks, ino'[i], q) == if Ptr(blocks, ino[i], q) in gone then 0 else Ptr(blocks, ino[i], q)
    requires forall b :: b in gone ==> b in owner && owner[b].0 == i
    ensures Own(sb, blocks, ino', owner - gone, loose + gone)
    ensures SameOthers(blocks, ino, blocks, ino', i)
  {
    hide Ptr;
    hide ByteAt;
    hide BitmapIs;
    BitmapMove(sb, blocks, owner, loose, owner - gone, loose + gone);
    forall c | c in owner - gone
      ensures OwnedAt(sb, blocks, ino', c, (owner - gone)[c])
    {
      assert OwnedAt(sb, blocks, ino, c, owner[c]);
    }
    forall c | c in gone
      ensures OwnedAt(sb, blocks, ino, c, owner[c])
    {
    }
  }

  /** ip->addrs[k] = 0 after freeing the block there. */
  lemma DetachDirect(sb: Superblock, blocks: seq<Block>, ino: seq<Inode>, owner: Owner, loose: set<nat>, i: nat, k: nat)
    requires Own(sb, blocks, ino, owner, loose) && i < |ino| && k < NDIRECT && ino[i].addrs[k] != 0
    ensures var b := ino[i].addrs[k];
            var ino' := ino[i := SetAddr(ino[i], k, 0)];
            && b in owner && b !in loose
            && Own(sb, blocks, ino', owner - {b}, loose + {b}) && SameOthers(blocks, ino, blocks, ino', i)
  {
    hide BitmapIs;
    hide ByteAt;
    hide Word;
    var b := ino[i].addrs[k];
    assert Ptr(blocks, ino[i], k) == b;
    OwnerDrop(sb, blocks, ino, owner, loose, ino[i := SetAddr(ino[i], k, 0)], i, {b});
  }

  /** Dropping the indirect block drops every block it lists. */
  lemma DetachIndirect(sb: Superblock, blocks: seq<Block>, ino: seq<Inode>, owner: Owner, loose: set<nat>, i: nat)
    requires Own(sb, blocks, ino, owner, loose) && i < |ino|
    ensures var gone := Held(blocks, ino[i], NDIRECT);
            var ino' := ino[i := SetAddr(ino[i], NDIRECT, 0)];
            && (forall b :: b in gone ==> b in owner && b !in loose)
            && Own(sb, blocks, ino', owner - gone, loose + gone) && SameOthers(blocks, ino, blocks, ino', i)
  {
    hide BitmapIs;
    hide ByteAt;
    hide Word;
    var gone := Held(blocks, ino[i], NDIRECT);
    var ino' := ino[i := SetAddr(ino[i], NDIRECT, 0)];
    HeldIs(blocks, ino[i], NDIRECT);
    forall q | 0 <= q < SLOTS
      ensures Ptr(blocks, ino'[i], q) == if Ptr(blocks, ino[i], q) in gone then 0 else Ptr(blocks, ino[i], q)
    {
      var p := Ptr(blocks, ino[i], q);
      assert p != 0 ==> owner[p] == (i, q);
    }
    OwnerDrop(sb, blocks, ino, owner, loose, ino', i, gone);
  }

  /** Writing a data block changes that block of that file and nothing else. */
  lemma DataWrite(sb: Superblock, blocks: seq<Block>, ino: seq<Inode>, owner: Owner, loose: set<nat>, i: nat, bn: nat,
                  v: Block)
    requires Own(sb, blocks, ino, owner, loose) && i < |ino| && bn < MAXFILE && Ptr(blocks, ino[i], SlotOf(bn)) != 0
    ensures var b := Ptr(blocks, ino[i], SlotOf(bn));
            var blocks' := blocks[b := v];
            && sb.data <= b < sb.size
            && Own(sb, blocks', ino, owner, loose) && SameOthers(blocks, ino, blocks', ino, i)
            && (forall k :: 0 <= k < SLOTS ==> Ptr(blocks', ino[i], k) == Ptr(blocks, ino[i], k))
            && forall o :: 0 <= o < MAXFILE * BSIZE ==>
                 ByteAt(blocks', ino[i], o) == if o / BSIZE == bn then v[o % BSIZE] else ByteAt(blocks, ino[i], o)
  {
    hide BitmapIs;
    hide Word;
    var k := SlotOf(bn);
    var b := Ptr(blocks, ino[i], k);
    var blocks' := blocks[b := v];
    assert OwnedAt(sb, blocks, ino, b, owner[b]);
    BitmapSame(sb, blocks, b, v, owner, loose);
    forall j, q | 0 <= j < |ino| && 0 <= q < SLOTS
      ensures Ptr(blocks', ino[j], q) == Ptr(blocks, ino[j], q)
      ensures Ptr(blocks, ino[j], q) == b ==> j == i && q == k
    {
      assert Ptr(blocks, ino[j], NDIRECT) != b;
      PtrSame(blocks, blocks', ino[j], q);
    }
    DataWritePtrs(sb, blocks, ino, owner, blocks');
    DataWriteBytes(blocks, blocks', ino, i, bn, v);
  }

  lemma DataWritePtrs(sb: Superblock, blocks: seq<Block>, ino: seq<Inode>, owner: Owner, blocks': seq<Block>)
    requires PtrsOwned(sb, blocks, ino, owner) && |blocks'| == |blocks|
    requires forall j :: 0 <= j < |ino| ==> InodeOk(blocks', ino[j])
    requires forall j, q :: 0 <= j < |ino| && 0 <= q < SLOTS ==> Ptr(blocks', ino[j], q) == Ptr(blocks, ino[j], q)
    ensures PtrsOwned(sb, blocks', ino, owner)
  {
    hide Ptr;
    forall c | c in owner
      ensures OwnedAt(sb, blocks', ino, c, owner[c])
    {
      assert OwnedAt(sb, blocks, ino, c, owner[c]);
    }
  }

  lemma DataWriteBytes(blocks: seq<Block>, blocks': seq<Block>, ino: seq<Inode>, i: nat, bn: nat, v: Block)
    requires i < |ino| && bn < MAXFILE && forall j :: 0 <= j < |ino| ==>
               InodeOk(blocks, ino[j]) && InodeOk(blocks', ino[j])
    requires |blocks'| == |blocks| && 0 < Ptr(blocks, ino[i], SlotOf(bn)) < |blocks|
    requires blocks' == blocks[Ptr(blocks, ino[i], SlotOf(bn)) := v]
    requires forall j, q :: 0 <= j < |ino| && 0 <= q < SLOTS ==>
               && Ptr(blocks', ino[j], q) == Ptr(blocks, ino[j], q)
               && (Ptr(blocks, ino[j], q) == Ptr(blocks, ino[i], SlotOf(bn)) ==> j == i && q == SlotOf(bn))
    ensures SameOthers(blocks, ino, blocks', ino, i)
    ensures forall o :: 0 <= o < MAXFILE * BSIZE ==>
              ByteAt(blocks', ino[i], o) == if o / BSIZE == bn then v[o % BSIZE] else ByteAt(blocks, ino[i], o)
  {
    hide Ptr;
  }

  /** Changing an inode's other fields moves no blocks and no bytes. */
  lemma Resized(sb: Superblock, blocks: seq<Block>, ino: seq<Inode>, owner: Owner, loose: set<nat>, i: nat, n: Inode)
    requires Own(sb, blocks, ino, owner, loose) && i < |ino| && n.addrs == ino[i].addrs
    ensures Own(sb, blocks, ino[i := n], owner, loose)
    ensures SameOthers(blocks, ino, blocks, ino[i := n], i) && SameBytes(blocks, ino, blocks, ino[i := n])
  {
    hide BitmapIs;
    hide Word;
    var ino' := ino[i := n];
    forall j, k | 0 <= j < |ino| && 0 <= k < SLOTS
      ensures InodeOk(blocks, ino'[j]) && Ptr(blocks, ino'[j], k) == Ptr(blocks, ino[j], k)
    {
    }
    ResizedPtrs(sb, blocks, ino, ino', owner);
  }

  lemma ResizedPtrs(sb: Superblock, blocks: seq<Block>, ino: seq<Inode>, ino': seq<Inode>, owner: Owner)
    requires PtrsOwned(sb, blocks, ino, owner) && |ino'| == |ino| && forall j :: 0 <= j < |ino| ==>
               InodeOk(blocks, ino'[j])
    requires forall j, k :: 0 <= j < |ino| && 0 <= k < SLOTS ==> Ptr(blocks, ino'[j], k) == Ptr(blocks, ino[j], k)
    ensures PtrsOwned(sb, blocks, ino', owner)
  {
    hide Ptr;
    forall c | c in owner
      ensures OwnedAt(sb, blocks, ino', c, owner[c])
    {
      assert OwnedAt(sb, blocks, ino, c, owner[c]);
    }
  }
}
