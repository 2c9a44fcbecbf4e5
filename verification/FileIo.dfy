/** readi and writei of kernel/fs.c and the chunk loop of filewrite in
    kernel/file.c, against a file seen as one flat run of bytes. */
module FileIo {
  import opened Base
  import opened Blocks
  import opened FsLayout
  import opened Ownership
  import opened Demand
  import opened Fs

  const MAXBYTES := MAXFILE * BSIZE
  const UINT := 0x1_0000_0000

  function Min(a: nat, b: nat): (r: nat) {
    if a < b then a else b
  }

  /** Every block of the file from number `from` up to byte `to` is allocated. */
  ghost predicate Mapped(blocks: seq<Block>, n: Inode, from: nat, to: nat) {
    && InodeOk(blocks, n)
    && forall bn :: from <= bn < MAXFILE && bn * BSIZE < to ==> Ptr(blocks, n, SlotOf(bn)) != 0
  }

  /** The file has no holes. */
  ghost predicate NoHoles(blocks: seq<Block>, n: Inode) {
    Mapped(blocks, n, 0, n.size)
  }

  function Piece(b: Block, at: nat, m: nat): (r: seq<Byte>)
    requires at + m <= BSIZE
    ensures |r| == m
  {
    b[at..at + m]
  }

  lemma ChunkIndex(off: nat, k: nat)
    requires off % BSIZE + k < BSIZE
    ensures (off + k) / BSIZE == off / BSIZE && (off + k) % BSIZE == off % BSIZE + k
  {
  }

  /** A chunk that stays inside one block reads straight from that block. */
  lemma ChunkBytes(blocks: seq<Block>, n: Inode, off: nat, m: nat, addr: nat)
    requires InodeOk(blocks, n) && off + m <= MAXBYTES && 0 < m && off % BSIZE + m <= BSIZE
    requires addr == Ptr(blocks, n, SlotOf(off / BSIZE)) && 0 < addr < |blocks|
    ensures forall k :: 0 <= k < m ==> Piece(blocks[addr], off % BSIZE, m)[k] == ByteAt(blocks, n, off + k)
  {
    hide Ptr;
    forall k | 0 <= k < m
      ensures Piece(blocks[addr], off % BSIZE, m)[k] == ByteAt(blocks, n, off + k)
    {
      ChunkIndex(off, k);
    }
  }

  /** Every stored block number is a data block. */
  lemma PtrRange(sb: Superblock, blocks: seq<Block>, ino: seq<Inode>, owner: Owner, i: nat, k: nat)
    requires Own(sb, blocks, ino, owner, {}) && i < |ino| && k < SLOTS && InodeOk(blocks, ino[i])
    ensures Ptr(blocks, ino[i], k) != 0 ==> sb.data <= Ptr(blocks, ino[i], k) < sb.size
  {
    hide Ptr;
    hide BitmapIs;
    var b := Ptr(blocks, ino[i], k);
    assert b != 0 ==> OwnedAt(sb, blocks, ino, b, owner[b]);
  }

  /** One past the last block that readi or writei of n bytes at off looks up, if
      the other side faults after `limit` bytes. */
  function LookEnd(off: nat, n: nat, limit: nat): (r: nat) {
    if n == 0 then off / BSIZE else (off + Min(limit, n - 1)) / BSIZE + 1
  }

  /** One past the last block looked up for the first tot bytes. */
  function LookedTo(off: nat, tot: nat): (r: nat) {
    if tot == 0 then off / BSIZE else (off + tot - 1) / BSIZE + 1
  }

  lemma LookStep(off: nat, tot: nat, n: nat)
    requires tot < n && (tot == 0 || Boundary(off + tot))
    ensures var m := ChunkLen(off + tot, n - tot);
            && LookedTo(off, tot) == (off + tot) / BSIZE && LookedTo(off, tot + m) == LookedTo(off, tot) + 1
            && (tot + m < n ==> Boundary(off + tot + m))
  {
    SpannedStep(off, tot, n);
    var m := ChunkLen(off + tot, n - tot);
    assert (off + tot + m - 1) / BSIZE == (off + tot) / BSIZE;
    if tot > 0 {
      assert (off + tot - 1) / BSIZE == (off + tot) / BSIZE - 1;
    }
  }

  /** Where the looking up ends. */
  lemma LookEnds(off: nat, tot: nat, n: nat, limit: nat)
    requires tot < n && tot <= limit && (tot == 0 || Boundary(off + tot)) && off + n <= MAXBYTES
    ensures var m := ChunkLen(off + tot, n - tot);
            && off / BSIZE <= (off + tot) / BSIZE < LookEnd(off, n, limit) <= MAXFILE
            && (limit < tot + m ==> LookEnd(off, n, limit) == (off + tot) / BSIZE + 1)
            && (tot + m == n <= limit ==> LookEnd(off, n, limit) == (off + tot) / BSIZE + 1)
  {
    var m := ChunkLen(off + tot, n - tot);
    if limit < tot + m {
      ChunkIndex(off + tot, limit - tot);
    }
    if tot + m == n <= limit {
      ChunkIndex(off + tot, m - 1);
    }
  }

  /** What a loop over the blocks of a file returns: all there is, or `fault` if the
      other side faults first, when there are blocks for all the empty slots it
      comes to; else it stops at the first block for which there are none. */
  ghost predicate Outcome(sb: Superblock, blocks: seq<Block>, n: Inode, off: nat, want: nat, limit: nat, fault: int,
                          r: int)
    requires sb.Valid() && |blocks| == sb.size && InodeOk(blocks, n)
  {
    if !Short(sb, blocks, n, off, want, limit) then r == if limit < want then fault else want
    else 0 <= r < want && StopsAt(sb, blocks, n, off, r)
  }

  /** There are fewer free blocks than empty slots to fill. */
  ghost predicate Short(sb: Superblock, blocks: seq<Block>, n: Inode, off: nat, want: nat, limit: nat)
    requires sb.Valid() && |blocks| == sb.size && InodeOk(blocks, n)
  {
    Room(sb, blocks) < Needed(blocks, n, off / BSIZE, LookEnd(off, want, limit))
  }

  /** The free blocks run out at the block under off + r. */
  ghost predicate StopsAt(sb: Superblock, blocks: seq<Block>, n: Inode, off: nat, r: nat)
    requires sb.Valid() && |blocks| == sb.size && InodeOk(blocks, n)
  {
    && (r == 0 || Boundary(off + r))
    && Needed(blocks, n, off / BSIZE, (off + r) / BSIZE) <= Room(sb, blocks)
       < Needed(blocks, n, off / BSIZE, (off + r) / BSIZE + 1)
  }

  lemma RunsOut(sb: Superblock, blocks: seq<Block>, ino: seq<Inode>, owner: Owner, cur: Owner, i: nat, lo: nat, bn: nat,
                hi: nat)
    requires Own(sb, blocks, ino, owner, {}) && i < |ino| && lo <= bn < hi <= MAXFILE
    requires Filled(owner, cur, i, Sought(lo, bn)) && |cur| <= sb.size - sb.data
    requires |Sought(lo, bn + 1) - HeldSlots(owner, i)| + |owner| > sb.size - sb.data
    ensures InodeOk(blocks, ino[i]) && sb.Valid() && |blocks| == sb.size
    ensures Needed(blocks, ino[i], lo, bn) <= Room(sb, blocks)
            < Needed(blocks, ino[i], lo, bn + 1) <= Needed(blocks, ino[i], lo, hi)
  {
    hide Own;
    hide Sought;
    hide HeldSlots;
    hide Needed;
    hide Room;
    OwnerFits(sb, blocks, ino, owner);
    NeededIs(sb, blocks, ino, owner, i, lo, bn);
    NeededIs(sb, blocks, ino, owner, i, lo, bn + 1);
    NeededGrows(blocks, ino[i], lo, bn + 1, hi);
  }

  /** The loop stops for want of a block. */
  lemma Stops(sb: Superblock, blocks: seq<Block>, ino: seq<Inode>, owner: Owner, cur: Owner, i: nat, off: nat, tot: nat,
              n: nat, limit: nat)
    requires Own(sb, blocks, ino, owner, {}) && i < |ino| && tot < n && tot <= limit
             && (tot == 0 || Boundary(off + tot)) && off + n <= MAXBYTES
    requires Filled(owner, cur, i, Sought(off / BSIZE, LookedTo(off, tot))) && |cur| <= sb.size - sb.data
    requires |Sought(off / BSIZE, (off + tot) / BSIZE + 1) - HeldSlots(owner, i)| + |owner| > sb.size - sb.data
    ensures InodeOk(blocks, ino[i]) && sb.Valid() && |blocks| == sb.size
    ensures Short(sb, blocks, ino[i], off, n, limit) && StopsAt(sb, blocks, ino[i], off, tot)
  {
    hide Own;
    hide Sought;
    hide HeldSlots;
    hide Needed;
    hide Room;
    hide Filled;
    hide LookEnd;
    hide LookedTo;
    hide ChunkLen;
    hide Boundary;
    LookEnds(off, tot, n, limit);
    LookStep(off, tot, n);
    RunsOut(sb, blocks, ino, owner, cur, i, off / BSIZE, (off + tot) / BSIZE, LookEnd(off, n, limit));
  }

  /** It comes to its end: there were blocks enough. */
  lemma NotShort(sb: Superblock, blocks: seq<Block>, ino: seq<Inode>, owner: Owner, cur: Owner, i: nat, off: nat,
                 n: nat, limit: nat, end: nat)
    requires Own(sb, blocks, ino, owner, {}) && i < |ino| && end == LookEnd(off, n, limit)
    requires Filled(owner, cur, i, Sought(off / BSIZE, end)) && |cur| <= sb.size - sb.data
    ensures InodeOk(blocks, ino[i]) && !Short(sb, blocks, ino[i], off, n, limit)
    ensures |cur| == |owner| + Needed(blocks, ino[i], off / BSIZE, end)
  {
    hide Own;
    hide Sought;
    hide HeldSlots;
    hide Needed;
    NeededIs(sb, blocks, ino, owner, i, off / BSIZE, end);
  }

  /** An own slot of the inode that is looked up is empty. */
  ghost predicate InodeHole(n: Inode, lo: nat, hi: nat)
    requires |n.addrs| == NDIRECT + 1
  {
    exists k: nat :: k <= NDIRECT && Seeks(k, lo, hi) && n.addrs[k] == 0
  }

  /** What reading leaves: nothing has changed exactly when no slot to be looked up
      was empty, or no block free; the inode has not, exactly when none of its own
      slots to be looked up was empty, or no block free. */
  ghost predicate ReadLeaves(sb: Superblock, blocks: seq<Block>, n: Inode, blocks': seq<Block>, n': Inode, off: nat,
                             want: nat, limit: nat)
    requires sb.Valid() && |blocks| == sb.size && InodeOk(blocks, n)
  {
    var lo, hi := off / BSIZE, LookEnd(off, want, limit);
    && (blocks' == blocks <==> Needed(blocks, n, lo, hi) == 0 || Room(sb, blocks) == 0)
    && (n' == n <==> !InodeHole(n, lo, hi) || Room(sb, blocks) == 0)
  }

  /** readi. `writable` is how many bytes the destination takes before it
      faults. The bytes delivered are the file's; a file without holes is left
      exactly as it was, while reading a hole allocates a block, which iupdate is
      not told of. Outside of an operation, as in fileread, that is log_write's
      panic. */
  method Readi(fs: Fs, i: nat, off0: nat, n0: nat, writable: nat) returns (panic: bool, r: int, out: seq<Byte>)
    requires fs.Valid({}) && i < |fs.ino| && off0 < UINT && n0 < UINT && fs.ino[i].size <= MAXBYTES
    modifies fs`blocks, fs`ino, fs`owner, fs`logged
    ensures fs.Valid({}) && Grown(old(fs.ino), old(fs.owner), fs.ino, fs.owner, i)
    ensures SameBytes(old(fs.blocks), old(fs.ino), fs.blocks, fs.ino)
    ensures off0 > old(fs.ino)[i].size || off0 + n0 >= UINT ==>
              !panic && r == 0 && fs.blocks == old(fs.blocks) && fs.ino == old(fs.ino)
    ensures off0 <= old(fs.ino)[i].size && off0 + n0 < UINT ==>
              && fs.sb.Valid() && |old(fs.blocks)| == fs.sb.size && InodeOk(old(fs.blocks), old(fs.ino)[i])
              && (panic <==> fs.outstanding == 0 && LooksForBlock(fs.sb, old(fs.blocks), old(fs.ino)[i], off0,
                                                                  Min(n0, old(fs.ino)[i].size - off0), writable))
    ensures panic ==> fs.blocks == old(fs.blocks) && r == 0
    ensures !panic && off0 <= old(fs.ino)[i].size && off0 + n0 < UINT ==>
              var want := Min(n0, old(fs.ino)[i].size - off0);
              && Outcome(fs.sb, old(fs.blocks), old(fs.ino)[i], off0, want, writable, -1, r)
              && ReadLeaves(fs.sb, old(fs.blocks), old(fs.ino)[i], fs.blocks, fs.ino[i], off0, want, writable)
              && -1 <= r <= want && (0 <= r < want ==> AllUsed(fs.sb, fs.blocks))
              && (!Short(fs.sb, old(fs.blocks), old(fs.ino)[i], off0, want, writable) ==>
                    Filled(old(fs.owner), fs.owner, i, Sought(off0 / BSIZE, LookEnd(off0, want, writable))))
    ensures fs.outstanding == 0 ==> fs.owner == old(fs.owner)
    ensures r >= 0 && !panic ==> |out| == r && (r > 0 ==> off0 + r <= old(fs.ino)[i].size) && forall k :: 0 <= k < r ==>
              off0 + k < MAXBYTES && out[k] == ByteAt(old(fs.blocks), old(fs.ino)[i], off0 + k)
    ensures fs.blocks == old(fs.blocks) ==>
              fs.ino == old(fs.ino) && fs.owner == old(fs.owner) && fs.logged == old(fs.logged)
    ensures old(fs.OnDisk()) ==> (fs.OnDisk() <==> fs.ino[i] == old(fs.ino)[i])
    ensures Covered(old(fs.blocks), old(fs.logged), fs.blocks, fs.logged, {})
  {
    hide Covered;
    CoveredNone(fs.blocks, fs.logged);
    hide Own;
    hide ByteAt;
    hide Ptr;
    hide AllUsed;
    hide Outcome;
    hide ReadLeaves;
    hide SameBytes;
    hide Short;
    hide Filled;
    hide Sought;
    hide LookEnd;
    hide LooksForBlock;
    hide InodeOk;
    OwnShape(fs.sb, fs.blocks, fs.ino, fs.owner, {});
    if off0 > fs.ino[i].size || off0 + n0 >= UINT {
      return false, 0, [];
    }
    var n := n0;
    if off0 + n > fs.ino[i].size {
      n := fs.ino[i].size - off0;
    }
    assert n == Min(n0, fs.ino[i].size - off0);
    panic, r, out := ReadLoop(fs, i, off0, n, writable);
    if panic {
      SameBytesRefl(fs.sb, fs.blocks, fs.ino, fs.owner, i);
      return;
    }
    Unchanged(fs, old(fs.blocks), old(fs.ino), old(fs.owner), old(fs.logged), i, off0, n, writable, r);
    Quietly(fs, old(fs.blocks), old(fs.ino), old(fs.owner), old(fs.logged), i, off0, n, writable, r);
    assert fs.ino == old(fs.ino) <==> fs.ino[i] == old(fs.ino)[i];
  }

  /** A slot to be looked up is empty, and there is a block for it. */
  ghost predicate LooksForBlock(sb: Superblock, blocks: seq<Block>, n: Inode, off: nat, want: nat, limit: nat)
    requires sb.Valid() && |blocks| == sb.size && InodeOk(blocks, n)
  {
    Needed(blocks, n, off / BSIZE, LookEnd(off, want, limit)) > 0 && Room(sb, blocks) > 0
  }

  /** A reader outside of an operation that did not panic had nothing to fill. */
  lemma Quietly(fs: Fs, b0: seq<Block>, i0: seq<Inode>, o0: Owner, l0: set<nat>, i: nat, off: nat, n: nat, limit: nat,
                r: int)
    requires ReadEnds(fs, b0, i0, o0, l0, i, off, n, limit, r)
    ensures fs.outstanding == 0 ==> !LooksForBlock(fs.sb, b0, i0[i], off, n, limit)
  {
    hide Covered;
    hide Own;
    hide Needed;
    hide Room;
    hide LookEnd;
  }

  /** Where the first empty slot is the panic. */
  ghost predicate ReadPanics(fs: Fs, b0: seq<Block>, i0: seq<Inode>, o0: Owner, l0: set<nat>, i: nat, off: nat, n: nat,
                             limit: nat)
    reads fs
  {
    && fs.Valid({}) && fs.outstanding == 0
    && fs.blocks == b0 && fs.ino == i0 && fs.owner == o0 && fs.logged == l0
    && i < |i0| && fs.sb.Valid() && |b0| == fs.sb.size && InodeOk(b0, i0[i])
    && LooksForBlock(fs.sb, b0, i0[i], off, n, limit)
  }

  lemma FillsLooks(sb: Superblock, blocks: seq<Block>, ino: seq<Inode>, owner: Owner, i: nat, off: nat, n: nat,
                   limit: nat, bn: nat)
    requires Own(sb, blocks, ino, owner, {}) && i < |ino| && Fills(sb, owner, i, bn)
    requires off / BSIZE <= bn < LookEnd(off, n, limit) <= MAXFILE
    ensures InodeOk(blocks, ino[i]) && LooksForBlock(sb, blocks, ino[i], off, n, limit)
  {
    hide Own;
    hide HeldSlots;
    hide LookEnd;
    var lo, hi := off / BSIZE, LookEnd(off, n, limit);
    NeededIs(sb, blocks, ino, owner, i, lo, hi);
    RoomIs(sb, blocks, ino, owner);
    var k :| k in Sought(bn, bn + 1) && k !in HeldSlots(owner, i);
    assert k in Sought(lo, hi) - HeldSlots(owner, i);
  }

  lemma SameBytesRefl(sb: Superblock, blocks: seq<Block>, ino: seq<Inode>, owner: Owner, i: nat)
    requires Own(sb, blocks, ino, owner, {}) && i < |ino|
    ensures SameBytes(blocks, ino, blocks, ino) && Grown(ino, owner, ino, owner, i)
  {
    hide ByteAt;
    hide Ptr;
  }

  lemma Unchanged(fs: Fs, b0: seq<Block>, i0: seq<Inode>, o0: Owner, l0: set<nat>, i: nat, off: nat, n: nat, limit: nat,
                  r: int)
    requires ReadEnds(fs, b0, i0, o0, l0, i, off, n, limit, r) && Own(fs.sb, b0, i0, o0, {}) && i < |i0|
    ensures fs.blocks == b0 ==> fs.ino == i0 && fs.owner == o0 && fs.logged == l0
  {
    hide Covered;
    hide Own;
    hide Needed;
    hide Room;
    NeededIs(fs.sb, b0, i0, o0, i, 0, 0);
    NeededIs(fs.sb, fs.blocks, fs.ino, fs.owner, i, 0, 0);
  }

  /** Where readi's loop stands after tot bytes. */
  ghost predicate ReadSoFar(fs: Fs, b0: seq<Block>, i0: seq<Inode>, o0: Owner, l0: set<nat>, i: nat, off: nat, tot: nat)
    reads fs
  {
    && fs.Valid({}) && Grown(i0, o0, fs.ino, fs.owner, i) && SameBytes(b0, i0, fs.blocks, fs.ino)
    && Filled(o0, fs.owner, i, Sought(off / BSIZE, LookedTo(off, tot))) && Same(fs, b0, i0, o0, l0)
  }

  /** The owner map tells whether anything changed. */
  ghost predicate Same(fs: Fs, b0: seq<Block>, i0: seq<Inode>, o0: Owner, l0: set<nat>)
    reads fs
  {
    && |fs.owner| >= |o0| && (fs.outstanding == 0 ==> |fs.owner| == |o0|)
    && (|fs.owner| == |o0| ==> fs.blocks == b0 && fs.ino == i0 && fs.owner == o0 && fs.logged == l0)
    && Covered(b0, l0, fs.blocks, fs.logged, {})
  }

  /** How it ends. */
  ghost predicate ReadEnds(fs: Fs, b0: seq<Block>, i0: seq<Inode>, o0: Owner, l0: set<nat>, i: nat, off: nat, n: nat,
                           limit: nat, r: int)
    reads fs
  {
    && fs.Valid({}) && Grown(i0, o0, fs.ino, fs.owner, i) && SameBytes(b0, i0, fs.blocks, fs.ino)
       && Same(fs, b0, i0, o0, l0)
    && fs.sb.Valid() && |b0| == fs.sb.size && InodeOk(b0, i0[i])
    && Outcome(fs.sb, b0, i0[i], off, n, limit, -1, r)
       && ReadLeaves(fs.sb, b0, i0[i], fs.blocks, fs.ino[i], off, n, limit)
    && (0 <= r < n ==> |fs.blocks| == fs.sb.size && AllUsed(fs.sb, fs.blocks))
    && (!Short(fs.sb, b0, i0[i], off, n, limit) ==>
          Filled(o0, fs.owner, i, Sought(off / BSIZE, LookEnd(off, n, limit))))
  }

  /** `piece` is what the file holds from off on. */
  ghost predicate Delivers(piece: seq<Byte>, blocks: seq<Block>, n: Inode, off: nat)
    requires InodeOk(blocks, n)
  {
    off + |piece| <= MAXBYTES && forall k :: 0 <= k < |piece| ==> piece[k] == ByteAt(blocks, n, off + k)
  }

  lemma PieceIs(a: seq<Block>, p: seq<Inode>, b: seq<Block>, q: seq<Inode>, i: nat, off: nat, m: nat, addr: nat)
    requires SameBytes(a, p, b, q) && i < |p| && off + m <= MAXBYTES && 0 < m && off % BSIZE + m <= BSIZE
             && InodeOk(b, q[i])
    requires addr == Ptr(b, q[i], SlotOf(off / BSIZE)) && 0 < addr < |b|
    ensures InodeOk(a, p[i]) && Delivers(Piece(b[addr], off % BSIZE, m), a, p[i], off)
  {
    hide ByteAt;
    hide Ptr;
    ChunkBytes(b, q[i], off, m, addr);
  }

  /** One turn of readi's loop: `piece` is what it delivers. */
  method ReadTurn(fs: Fs, i: nat, off0: nat, n: nat, tot: nat, limit: nat, ghost b0: seq<Block>, ghost i0: seq<Inode>,
                  ghost o0: Owner, ghost l0: set<nat>)
    returns (panic: bool, addr: nat, piece: seq<Byte>)
    requires ReadSoFar(fs, b0, i0, o0, l0, i, off0, tot) && Own(fs.sb, b0, i0, o0, {}) && i < |i0| && InodeOk(b0, i0[i])
    requires tot < n && tot <= limit && (tot == 0 || Boundary(off0 + tot)) && off0 + n <= MAXBYTES
    modifies fs`blocks, fs`ino, fs`owner, fs`logged
    ensures panic ==> ReadPanics(fs, b0, i0, o0, l0, i, off0, n, limit)
    ensures !panic && addr == 0 ==> ReadEnds(fs, b0, i0, o0, l0, i, off0, n, limit, tot)
    ensures !panic && addr != 0 ==>
              var m := ChunkLen(off0 + tot, n - tot);
              if tot + m > limit then ReadEnds(fs, b0, i0, o0, l0, i, off0, n, limit, -1)
              else
                && ReadSoFar(fs, b0, i0, o0, l0, i, off0, tot + m)
                && |piece| == m && Delivers(piece, b0, i0[i], off0 + tot)
  {
    hide Covered;
    hide Own;
    hide SameBytes;
    hide Ptr;
    hide AllUsed;
    hide Outcome;
    hide ReadLeaves;
    hide Filled;
    hide Served;
    hide HeldSlots;
    hide Sought;
    hide LookedTo;
    hide LookEnd;
    hide Boundary;
    hide Grown;
    hide Piece;
    hide ChunkLen;
    hide Short;
    hide StopsAt;
    hide ByteAt;
    hide Delivers;
    hide BitmapBlocks;
    hide NonZero;
    hide SlotOf;
    hide OwnerKept;
    hide InodeHole;
    hide LooksForBlock;
    hide Fills;
    ghost var b1, i1, o1, l1 := fs.blocks, fs.ino, fs.owner, fs.logged;
    GrownShape(i0, o0, i1, o1, i);
    LookStep(off0, tot, n);
    LookEnds(off0, tot, n, limit);
    piece := [];
    var bn := (off0 + tot) / BSIZE;
    panic, addr := fs.Bmap(i, bn);
    if panic {
      OwnerFits(fs.sb, b0, i0, o0);
      FillsLooks(fs.sb, b0, i0, o0, i, off0, n, limit, bn);
      return;
    }
    CoveredTrans(b0, l0, b1, l1, fs.blocks, fs.logged, {});
    AfterBmap(fs.sb, b0, i0, o0, b1, i1, o1, fs.blocks, fs.ino, fs.owner, i, off0 / BSIZE, bn, addr != 0);
    if addr == 0 {
      Stops(fs.sb, b0, i0, o0, o1, i, off0, tot, n, limit);
      GrownKept(i1, o1, fs.ino, fs.owner, i);
      InodeStopped(fs.sb, b0, i0, o0, o1, fs.blocks, fs.ino, fs.owner, i, off0 / BSIZE, bn, LookEnd(off0, n, limit));
      ReadStopped(fs.sb, b0, i0, o0, fs.blocks, fs.ino, fs.owner, i, off0, n, limit, tot);
      return;
    }
    var m := ChunkLen(off0 + tot, n - tot);
    if tot + m > limit {
      ReadDone(fs.sb, b0, i0, o0, fs.blocks, fs.ino, fs.owner, i, off0, n, limit);
      return;
    }
    piece := TakePiece(fs, i, off0 + tot, n - tot, addr, b0, i0);
  }

  /** The part of the block at addr that the turn at off delivers. */
  method TakePiece(fs: Fs, i: nat, off: nat, left: nat, addr: nat, ghost b0: seq<Block>, ghost i0: seq<Inode>)
      returns (piece: seq<Byte>)
    requires fs.Valid({}) && i < |fs.ino| == |i0| && SameBytes(b0, i0, fs.blocks, fs.ino)
             && InodeOk(fs.blocks, fs.ino[i])
    requires 0 < left && off + left <= MAXBYTES && addr == Ptr(fs.blocks, fs.ino[i], SlotOf(off / BSIZE)) != 0
    ensures InodeOk(b0, i0[i]) && |piece| == ChunkLen(off, left) && Delivers(piece, b0, i0[i], off)
  {
    hide SameBytes;
    hide Delivers;
    hide Ptr;
    hide PtrsOwned;
    hide BitmapIs;
    PtrRange(fs.sb, fs.blocks, fs.ino, fs.owner, i, SlotOf(off / BSIZE));
    PieceIs(b0, i0, fs.blocks, fs.ino, i, off, ChunkLen(off, left), addr);
    piece := Piece(fs.blocks[addr], off % BSIZE, ChunkLen(off, left));
  }

  /** One bmap more. */
  lemma AfterBmap(sb: Superblock, b0: seq<Block>, i0: seq<Inode>, o0: Owner, b1: seq<Block>, i1: seq<Inode>, o1: Owner,
                  b2: seq<Block>, i2: seq<Inode>, o2: Owner, i: nat, lo: nat, bn: nat, ok: bool)
    requires Own(sb, b0, i0, o0, {}) && Own(sb, b1, i1, o1, {}) && Own(sb, b2, i2, o2, {}) && lo <= bn < MAXFILE
    requires Grown(i0, o0, i1, o1, i) && Grown(i1, o1, i2, o2, i) && SameBytes(b0, i0, b1, i1)
             && SameBytes(b1, i1, b2, i2)
    requires Filled(o0, o1, i, Sought(lo, bn)) && Served(sb, o1, o2, i, bn, ok)
    ensures Grown(i0, o0, i2, o2, i) && SameBytes(b0, i0, b2, i2) && |i0| == |i1| == |i2|
    ensures sb.Valid() && |b0| == |b1| == |b2| == sb.size
    ensures |o1| <= |o2| <= sb.size - sb.data && (ok ==> Filled(o0, o2, i, Sought(lo, bn + 1)))
    ensures !ok ==> |o2| == sb.size - sb.data && |Sought(lo, bn + 1) - HeldSlots(o0, i)| + |o0| > sb.size - sb.data
  {
    hide Own;
    hide SameBytes;
    hide Filled;
    hide Served;
    hide Sought;
    hide HeldSlots;
    OwnerFits(sb, b0, i0, o0);
    OwnerFits(sb, b1, i1, o1);
    OwnerFits(sb, b2, i2, o2);
    ServedNext(sb, o0, o1, o2, i, lo, bn, ok);
    ServedMore(sb, o1, o2, i, bn, ok);
    SameBytesTrans(b0, i0, b1, i1, b2, i2);
    GrownTrans(i0, o0, i1, o1, i2, o2, i);
  }

  /** Blocks that were owned are owned as they were. */
  ghost predicate OwnerKept(owner: Owner, owner': Owner) {
    forall b :: b in owner ==> b in owner' && owner'[b] == owner[b]
  }

  lemma FillStarts(sb: Superblock, blocks: seq<Block>, ino: seq<Inode>, owner: Owner, i: nat, off: nat, limit: nat)
    requires Own(sb, blocks, ino, owner, {})
    ensures Filled(owner, owner, i, Sought(off / BSIZE, LookedTo(off, 0))) && LookedTo(off, 0) == LookEnd(off, 0, limit)
    ensures sb.Valid() && |blocks| == sb.size
  {
    hide HeldSlots;
    hide Sought;
    SoughtNone(off / BSIZE);
    FilledNone(owner, i, {});
  }

  /** Slots that were filled are not empty. */
  lemma NoneEmpty(sb: Superblock, blocks: seq<Block>, ino: seq<Inode>, a: Owner, b: Owner, i: nat, off: nat, tot: nat,
                  end: nat)
    requires Own(sb, blocks, ino, b, {}) && i < |ino| && Filled(a, b, i, Sought(off / BSIZE, end))
             && LookedTo(off, tot) <= end <= MAXFILE
    ensures InodeOk(blocks, ino[i]) && Needed(blocks, ino[i], off / BSIZE, LookedTo(off, tot)) == 0
  {
    hide Own;
    hide HeldSlots;
    hide Sought;
    hide Needed;
    LookedFrom(off, tot);
    SoughtGrows(off / BSIZE, LookedTo(off, tot), end);
    NeededIs(sb, blocks, ino, b, i, off / BSIZE, LookedTo(off, tot));
    assert Sought(off / BSIZE, LookedTo(off, tot)) - HeldSlots(b, i) == {};
  }

  lemma LookedFrom(off: nat, tot: nat)
    ensures off / BSIZE <= LookedTo(off, tot)
  {
  }

  lemma LookedBound(off: nat, tot: nat)
    requires off + tot <= MAXBYTES
    ensures LookedTo(off, tot) <= MAXFILE
  {
  }

  /** Only an inode's addresses tell which slots are empty. */
  lemma NeededSame(blocks: seq<Block>, n: Inode, n': Inode, lo: nat, hi: nat)
    requires InodeOk(blocks, n) && n'.addrs == n.addrs
    ensures InodeOk(blocks, n') && Needed(blocks, n', lo, hi) == Needed(blocks, n, lo, hi)
  {
    hide Sought;
    hide Word;
    assert Empty(blocks, n', Sought(lo, hi)) == Empty(blocks, n, Sought(lo, hi));
  }

  lemma StillHeld(sb: Superblock, blocks: seq<Block>, ino: seq<Inode>, a: Owner, b: Owner, c: Owner, i: nat, off: nat,
                  tot: nat)
    requires Own(sb, blocks, ino, c, {}) && i < |ino| && Filled(a, b, i, Sought(off / BSIZE, LookedTo(off, tot)))
             && OwnerKept(b, c)
    ensures InodeOk(blocks, ino[i]) && Needed(blocks, ino[i], off / BSIZE, LookedTo(off, tot)) == 0
  {
    hide Own;
    hide Sought;
    hide Needed;
    hide LookedTo;
    var ks := Sought(off / BSIZE, LookedTo(off, tot));
    forall k | k in ks
      ensures k in HeldSlots(c, i)
    {
      var x :| x in b && b[x] == (i, k);
      assert c[x] == (i, k);
    }
    NeededIs(sb, blocks, ino, c, i, off / BSIZE, LookedTo(off, tot));
    assert ks - HeldSlots(c, i) == {};
  }

  lemma GrownShape(a: seq<Inode>, p: Owner, b: seq<Inode>, q: Owner, i: nat)
    requires Grown(a, p, b, q, i)
    ensures |a| == |b| && i < |a|
  {
  }

  lemma ChunkFits(off: nat, left: nat)
    ensures off % BSIZE + ChunkLen(off, left) <= BSIZE && ChunkLen(off, left) <= left
            && (left > 0 ==> ChunkLen(off, left) > 0)
  {
  }

  lemma ServedMore(sb: Superblock, a: Owner, b: Owner, i: nat, bn: nat, ok: bool)
    requires Served(sb, a, b, i, bn, ok) && |a| <= sb.size - sb.data
    ensures |b| >= |a| && (!ok ==> |b| == sb.size - sb.data)
  {
    hide Sought;
    hide HeldSlots;
  }

  /** readi's loop. */
  method ReadLoop(fs: Fs, i: nat, off0: nat, n: nat, writable: nat) returns (panic: bool, r: int, out: seq<Byte>)
    requires fs.Valid({}) && i < |fs.ino| && off0 + n <= MAXBYTES && InodeOk(fs.blocks, fs.ino[i])
    modifies fs`blocks, fs`ino, fs`owner, fs`logged
    ensures panic ==>
              r == 0 && ReadPanics(fs, old(fs.blocks), old(fs.ino), old(fs.owner), old(fs.logged), i, off0, n, writable)
    ensures !panic ==> ReadEnds(fs, old(fs.blocks), old(fs.ino), old(fs.owner), old(fs.logged), i, off0, n, writable, r)
    ensures -1 <= r <= n
    ensures r >= 0 && !panic ==> |out| == r && Delivers(out, old(fs.blocks), old(fs.ino)[i], off0)
  {
    hide Own;
    hide ReadSoFar;
    hide ReadEnds;
    hide ReadPanics;
    hide ByteAt;
    hide Boundary;
    hide ChunkLen;
    hide LookedTo;
    hide LookEnd;
    ghost var b0, i0, o0, l0 := fs.blocks, fs.ino, fs.owner, fs.logged;
    LoopStarts(fs, i, off0, writable);
    out := [];
    var tot := 0;
    while tot < n
      invariant 0 <= tot <= n && |out| == tot && tot <= writable && (tot == 0 || tot == n || Boundary(off0 + tot))
      invariant ReadSoFar(fs, b0, i0, o0, l0, i, off0, tot)
                && (tot == n ==> LookedTo(off0, tot) == LookEnd(off0, n, writable))
      invariant Delivers(out, b0, i0[i], off0)
    {
      LookStep(off0, tot, n);
      LookEnds(off0, tot, n, writable);
      ChunkFits(off0 + tot, n - tot);
      var addr, piece;
      panic, addr, piece := ReadTurn(fs, i, off0, n, tot, writable, b0, i0, o0, l0);
      if panic {
        return true, 0, [];
      }
      if addr == 0 {
        return false, tot, out;
      }
      var m := ChunkLen(off0 + tot, n - tot);
      if tot + m > writable {
        return false, -1, out;
      }
      out := out + piece;
      tot := tot + m;
    }
    ReadAll(fs, b0, i0, o0, l0, i, off0, n, writable);
    panic, r := false, tot;
  }

  /** The loop ran to its end. */
  lemma ReadAll(fs: Fs, b0: seq<Block>, i0: seq<Inode>, o0: Owner, l0: set<nat>, i: nat, off: nat, n: nat, limit: nat)
    requires ReadSoFar(fs, b0, i0, o0, l0, i, off, n) && LookedTo(off, n) == LookEnd(off, n, limit) && n <= limit
    requires Own(fs.sb, b0, i0, o0, {}) && i < |i0|
    ensures ReadEnds(fs, b0, i0, o0, l0, i, off, n, limit, n)
  {
    hide Covered;
    hide Own;
    hide SameBytes;
    hide Sought;
    hide LookedTo;
    hide LookEnd;
    hide Outcome;
    hide ReadLeaves;
    hide Filled;
    OwnerFits(fs.sb, b0, i0, o0);
    ReadDone(fs.sb, b0, i0, o0, fs.blocks, fs.ino, fs.owner, i, off, n, limit);
  }

  lemma LoopStarts(fs: Fs, i: nat, off: nat, limit: nat)
    requires fs.Valid({}) && i < |fs.ino|
    ensures ReadSoFar(fs, fs.blocks, fs.ino, fs.owner, fs.logged, i, off, 0)
            && LookedTo(off, 0) == LookEnd(off, 0, limit)
  {
    hide Covered;
    CoveredNone(fs.blocks, fs.logged);
    hide Own;
    hide HeldSlots;
    OwnShape(fs.sb, fs.blocks, fs.ino, fs.owner, {});
    SoughtNone(off / BSIZE);
    FilledNone(fs.owner, i, {});
  }

  lemma OwnerFits(sb: Superblock, blocks: seq<Block>, ino: seq<Inode>, owner: Owner)
    requires Own(sb, blocks, ino, owner, {})
    ensures |owner| <= sb.size - sb.data && sb.Valid() && |blocks| == sb.size
  {
    RoomIs(sb, blocks, ino, owner);
  }

  lemma GrownTrans(a: seq<Inode>, p: Owner, b: seq<Inode>, q: Owner, c: seq<Inode>, r: Owner, i: nat)
    requires Grown(a, p, b, q, i) && Grown(b, q, c, r, i)
    ensures Grown(a, p, c, r, i) && |a| == |c|
  {
  }

  /** The loop looked up all it had to. */
  lemma ReadDone(sb: Superblock, b0: seq<Block>, i0: seq<Inode>, o0: Owner, b1: seq<Block>, i1: seq<Inode>, o1: Owner,
                 i: nat, off: nat, n: nat, limit: nat)
    requires Own(sb, b0, i0, o0, {}) && Own(sb, b1, i1, o1, {}) && Grown(i0, o0, i1, o1, i)
    requires Filled(o0, o1, i, Sought(off / BSIZE, LookEnd(off, n, limit)))
    requires |o1| == |o0| ==> b1 == b0 && i1 == i0
    ensures InodeOk(b0, i0[i]) && Outcome(sb, b0, i0[i], off, n, limit, -1, if limit < n then -1 else n)
    ensures ReadLeaves(sb, b0, i0[i], b1, i1[i], off, n, limit)
  {
    hide Own;
    hide Sought;
    hide HeldSlots;
    hide Needed;
    hide Room;
    OwnerFits(sb, b0, i0, o0);
    OwnerFits(sb, b1, i1, o1);
    NotShort(sb, b0, i0, o0, o1, i, off, n, limit, LookEnd(off, n, limit));
    NeededIs(sb, b0, i0, o0, i, off / BSIZE, LookEnd(off, n, limit));
    NeededIs(sb, b1, i1, o1, i, off / BSIZE, LookEnd(off, n, limit));
    HoleNeeds(b0, i0[i], off / BSIZE, LookEnd(off, n, limit));
    InodeFilled(sb, b0, i0, o0, b1, i1, o1, i, off / BSIZE, LookEnd(off, n, limit));
  }

  lemma InodeFilled(sb: Superblock, b0: seq<Block>, i0: seq<Inode>, o0: Owner, b1: seq<Block>, i1: seq<Inode>,
                    o1: Owner, i: nat, lo: nat, hi: nat)
    requires Own(sb, b0, i0, o0, {}) && Own(sb, b1, i1, o1, {}) && Grown(i0, o0, i1, o1, i)
             && Filled(o0, o1, i, Sought(lo, hi))
    ensures |i0[i].addrs| == NDIRECT + 1 && (i1[i] == i0[i] <==> !InodeHole(i0[i], lo, hi))
  {
    hide Own;
    hide Slots;
    InodeSame(sb, b0, i0, o0, b1, i1, o1, i);
    SlotIs(sb, b0, i0, o0, {}, i, 0);
    forall k: nat | k <= NDIRECT
      ensures k in HeldSlots(o0, i) <==> i0[i].addrs[k] != 0
    {
      SlotIs(sb, b0, i0, o0, {}, i, k);
    }
    assert i1 == i0 <==> i1[i] == i0[i];
  }

  lemma HoleNeeds(blocks: seq<Block>, n: Inode, lo: nat, hi: nat)
    requires InodeOk(blocks, n)
    ensures InodeHole(n, lo, hi) ==> Needed(blocks, n, lo, hi) > 0
  {
    if k: nat :| k <= NDIRECT && Seeks(k, lo, hi) && n.addrs[k] == 0 {
      assert k in Empty(blocks, n, Sought(lo, hi));
    }
  }

  /** A loop that stops for want of a block has filled an own slot of the inode, if
      one was empty and there was a block. */
  lemma InodeStopped(sb: Superblock, b0: seq<Block>, i0: seq<Inode>, o0: Owner, o1: Owner, b2: seq<Block>,
                     i2: seq<Inode>, o2: Owner,
                     i: nat, lo: nat, bn: nat, hi: nat)
    requires Own(sb, b0, i0, o0, {}) && Own(sb, b2, i2, o2, {}) && Grown(i0, o0, i2, o2, i) && OwnerKept(o1, o2)
    requires lo <= bn < hi <= MAXFILE && Filled(o0, o1, i, Sought(lo, bn)) && Served(sb, o1, o2, i, bn, false)
    ensures |i0[i].addrs| == NDIRECT + 1 && (InodeHole(i0[i], lo, hi) && |o0| < sb.size - sb.data ==> i2[i] != i0[i])
    ensures !InodeHole(i0[i], lo, hi) ==> i2[i] == i0[i]
  {
    hide Own;
    hide Slots;
    SlotIs(sb, b0, i0, o0, {}, i, 0);
    forall k: nat | k <= NDIRECT
      ensures k in HeldSlots(o0, i) <==> i0[i].addrs[k] != 0
    {
      SlotIs(sb, b0, i0, o0, {}, i, k);
    }
    InodeSame(sb, b0, i0, o0, b2, i2, o2, i);
    if InodeHole(i0[i], lo, hi) && |o0| < sb.size - sb.data {
      var k: nat :| k <= NDIRECT && Seeks(k, lo, hi) && i0[i].addrs[k] == 0;
      SlotIs(sb, b0, i0, o0, {}, i, k);
      KeptSlots(o1, o2, i);
      StoppedFills(sb, o0, o1, o2, i, lo, bn, hi, k);
      assert i2 == i0 <==> i2[i] == i0[i];
    }
  }

  lemma GrownKept(a: seq<Inode>, p: Owner, b: seq<Inode>, q: Owner, i: nat)
    requires Grown(a, p, b, q, i)
    ensures OwnerKept(p, q)
  {
  }

  lemma KeptSlots(a: Owner, b: Owner, i: nat)
    requires OwnerKept(a, b)
    ensures forall k :: k in HeldSlots(a, i) ==> k in HeldSlots(b, i)
  {
    forall k | k in HeldSlots(a, i)
      ensures k in HeldSlots(b, i)
    {
      var x :| x in a && a[x] == (i, k);
      assert b[x] == (i, k);
    }
  }

  /** The loop stopped for want of a block. */
  lemma ReadStopped(sb: Superblock, b0: seq<Block>, i0: seq<Inode>, o0: Owner, b1: seq<Block>, i1: seq<Inode>,
                    o1: Owner,
                    i: nat, off: nat, n: nat, limit: nat, tot: nat)
    requires Own(sb, b0, i0, o0, {}) && Own(sb, b1, i1, o1, {}) && i < |i0| == |i1| && |o1| == sb.size - sb.data
             && tot < n
    requires InodeOk(b0, i0[i]) && Short(sb, b0, i0[i], off, n, limit) && StopsAt(sb, b0, i0[i], off, tot)
    requires |o1| == |o0| ==> b1 == b0 && i1 == i0
    requires InodeHole(i0[i], off / BSIZE, LookEnd(off, n, limit)) && |o0| < sb.size - sb.data ==> i1[i] != i0[i]
    requires !InodeHole(i0[i], off / BSIZE, LookEnd(off, n, limit)) ==> i1[i] == i0[i]
    ensures Outcome(sb, b0, i0[i], off, n, limit, -1, tot) && ReadLeaves(sb, b0, i0[i], b1, i1[i], off, n, limit)
  {
    hide Own;
    hide Needed;
    hide Room;
    hide StopsAt;
    hide InodeHole;
    hide LookEnd;
    NeededIs(sb, b0, i0, o0, i, 0, 0);
    NeededIs(sb, b1, i1, o1, i, 0, 0);
  }

  // ---------- writing ----------

  /** The file after `src` has been spliced in at `off`, everything else kept. */
  ghost predicate Spliced(blocks: seq<Block>, n: Inode, blocks': seq<Block>, n': Inode, off: nat, src: seq<Byte>)
    requires InodeOk(blocks, n) && InodeOk(blocks', n')
  {
    forall o :: 0 <= o < MAXBYTES ==>
      ByteAt(blocks', n', o) == if off <= o < off + |src| then src[o - off] else ByteAt(blocks, n, o)
  }

  lemma PatchIndex(o: nat, off: nat, k: nat)
    requires off % BSIZE + k <= BSIZE
    ensures off <= o < off + k ==> o / BSIZE == off / BSIZE && o % BSIZE == off % BSIZE + (o - off)
    ensures o / BSIZE == off / BSIZE && !(off <= o < off + k) ==>
              o % BSIZE < off % BSIZE || o % BSIZE >= off % BSIZE + k
  {
  }

  /** Patching the block under the file offset splices the bytes in. */
  lemma PatchSplices(blocks: seq<Block>, blocks': seq<Block>, n: Inode, off: nat, bytes: seq<Byte>, addr: nat)
    requires InodeOk(blocks, n) && InodeOk(blocks', n) && off < MAXBYTES && off % BSIZE + |bytes| <= BSIZE
    requires addr == Ptr(blocks, n, SlotOf(off / BSIZE)) && 0 < addr < |blocks|
    requires forall o :: 0 <= o < MAXBYTES ==>
               ByteAt(blocks', n, o) == if o / BSIZE ==
                   off / BSIZE then Splice(blocks[addr], off % BSIZE, bytes)[o % BSIZE] else ByteAt(blocks, n, o)
    ensures Spliced(blocks, n, blocks', n, off, bytes)
  {
    hide Ptr;
    forall o | 0 <= o < MAXBYTES
      ensures ByteAt(blocks', n, o) == if off <= o < off + |bytes| then bytes[o - off] else ByteAt(blocks, n, o)
    {
      PatchIndex(o, off, |bytes|);
    }
  }

  lemma SplicedMore(a: seq<Block>, p: Inode, b: seq<Block>, q: Inode, c: seq<Block>, r: Inode, off: nat, src: seq<Byte>,
                    more: seq<Byte>)
    requires InodeOk(a, p) && InodeOk(b, q) && InodeOk(c, r)
    requires Spliced(a, p, b, q, off, src) && Spliced(b, q, c, r, off + |src|, more)
    ensures Spliced(a, p, c, r, off, src + more)
  {
    hide ByteAt;
    forall o | 0 <= o < MAXBYTES
      ensures ByteAt(c, r, o) == if off <= o < off + |src + more| then (src + more)[o - off] else ByteAt(a, p, o)
    {
      assert ByteAt(b, q, o) == if off <= o < off + |src| then src[o - off] else ByteAt(a, p, o);
    }
  }

  lemma GrownOthers(a: seq<Block>, p: seq<Inode>, owner: Owner, b: seq<Block>, q: seq<Inode>, owner': Owner, i: nat)
    requires SameBytes(a, p, b, q) && Grown(p, owner, q, owner', i)
    ensures SameOthers(a, p, b, q, i)
    ensures Spliced(a, p[i], b, q[i], 0, [])
  {
    hide ByteAt;
  }

  /** A file keeps the blocks it has. */
  lemma MappedKept(sb: Superblock, blocks: seq<Block>, ino: seq<Inode>, owner: Owner,
                   blocks': seq<Block>, ino': seq<Inode>, owner': Owner, i: nat, from: nat, to: nat)
    requires Own(sb, blocks, ino, owner, {}) && Own(sb, blocks', ino', owner', {}) && Grown(ino, owner, ino', owner', i)
    requires Mapped(blocks, ino[i], from, to)
    ensures Mapped(blocks', ino'[i], from, to)
  {
    hide Ptr;
    hide BitmapIs;
    forall bn | from <= bn < MAXFILE && bn * BSIZE < to
      ensures Ptr(blocks', ino'[i], SlotOf(bn)) != 0
    {
      var b := Ptr(blocks, ino[i], SlotOf(bn));
      assert b in owner && owner[b] == (i, SlotOf(bn));
      assert OwnedAt(sb, blocks', ino', b, owner'[b]);
    }
  }

  /** The number of blocks that bytes [off, off + n) touch. */
  function Spanned(off: nat, n: nat): (r: nat) {
    if n == 0 then 0 else (off + n - 1) / BSIZE - off / BSIZE + 1
  }

  predicate Boundary(off: nat) {
    off % BSIZE == 0
  }

  /** How far one turn of the loops of readi and writei gets. */
  function ChunkLen(off: nat, left: nat): (m: nat)
    ensures m <= left && (left > 0 ==> m > 0)
  {
    Min(left, BSIZE - off % BSIZE)
  }

  lemma SpannedStep(off0: nat, tot: nat, n: nat)
    requires tot < n && (tot == 0 || Boundary(off0 + tot))
    ensures var m := ChunkLen(off0 + tot, n - tot);
            && Spanned(off0, tot + m) == Spanned(off0, tot) + 1 <= Spanned(off0, n)
            && (tot + m < n ==> Boundary(off0 + tot + m))
  {
    var off, left := off0 + tot, n - tot;
    var m := ChunkLen(off, left);
    var q := off / BSIZE;
    assert (off + m - 1) / BSIZE == q;
    if tot > 0 {
      assert off == q * BSIZE;
      assert (off - 1) / BSIZE == q - 1;
    }
    if m < left {
      assert off + m == (q + 1) * BSIZE;
    }
  }

  /** memmove into the block under file offset `off`, followed or not by
      log_write. */
  method StoreBytes(fs: Fs, i: nat, off: nat, bytes: seq<Byte>, addr: nat, log: bool)
    requires fs.Valid({}) && i < |fs.ino| && off < MAXBYTES && off % BSIZE + |bytes| <= BSIZE
             && InodeOk(fs.blocks, fs.ino[i]) && fs.outstanding > 0
    requires addr == Ptr(fs.blocks, fs.ino[i], SlotOf(off / BSIZE)) != 0
    modifies fs`blocks, fs`logged
    ensures fs.Valid({}) && InodeOk(fs.blocks, fs.ino[i]) && SameOthers(old(fs.blocks), fs.ino, fs.blocks, fs.ino, i)
    ensures Spliced(old(fs.blocks), fs.ino[i], fs.blocks, fs.ino[i], off, bytes)
    ensures Ptr(fs.blocks, fs.ino[i], SlotOf(off / BSIZE)) == addr
    ensures forall to :: Mapped(old(fs.blocks), fs.ino[i], 0, to) ==> Mapped(fs.blocks, fs.ino[i], 0, to)
    ensures fs.logged == old(fs.logged) + if log then {addr} else {}
    ensures Covered(old(fs.blocks), old(fs.logged), fs.blocks, fs.logged, if log || bytes == [] then {} else {addr})
  {
    hide PtrsOwned;
    hide BitmapIs;
    hide SameOthers;
    hide Spliced;
    hide Ptr;
    PtrRange(fs.sb, fs.blocks, fs.ino, fs.owner, i, SlotOf(off / BSIZE));
    var v := Splice(fs.blocks[addr], off % BSIZE, bytes);
    DataWrite(fs.sb, fs.blocks, fs.ino, fs.owner, {}, i, off / BSIZE, v);
    if log {
      var panic := fs.Put(addr, v);
    } else {
      fs.blocks := fs.blocks[addr := v];
    }
    if bytes == [] {
      assert v == old(fs.blocks)[addr];
    }
    PatchSplices(old(fs.blocks), fs.blocks, fs.ino[i], off, bytes, addr);
  }

  /** One turn of writei's loop up to the copy: the block under `off`, and the
      file unchanged so far. */
  method BlockUnder(fs: Fs, i: nat, off: nat, ghost whole: bool, ghost to: nat) returns (addr: nat)
    requires fs.Valid({}) && i < |fs.ino| && off < MAXBYTES && fs.outstanding > 0
             && (whole ==> Mapped(fs.blocks, fs.ino[i], 0, to))
    modifies fs`blocks, fs`ino, fs`owner, fs`logged
    ensures fs.Valid({}) && Grown(old(fs.ino), old(fs.owner), fs.ino, fs.owner, i) && InodeOk(fs.blocks, fs.ino[i])
    ensures SameOthers(old(fs.blocks), old(fs.ino), fs.blocks, fs.ino, i)
    ensures Spliced(old(fs.blocks), old(fs.ino)[i], fs.blocks, fs.ino[i], 0, [])
    ensures addr == Ptr(fs.blocks, fs.ino[i], SlotOf(off / BSIZE))
    ensures addr == 0 ==> AllUsed(fs.sb, fs.blocks)
    ensures whole ==> Mapped(fs.blocks, fs.ino[i], 0, to)
    ensures |old(fs.ino)[i].addrs| == NDIRECT + 1
    ensures old(fs.ino)[i].addrs[NDIRECT] != 0 ==> fs.ino[i].addrs[NDIRECT] == old(fs.ino)[i].addrs[NDIRECT]
    ensures fs.logged <= old(fs.logged) + NonZero(addr) + NonZero(fs.ino[i].addrs[NDIRECT]) + BitmapBlocks(fs.sb)
    ensures Served(fs.sb, old(fs.owner), fs.owner, i, off / BSIZE, addr != 0)
    ensures Covered(old(fs.blocks), old(fs.logged), fs.blocks, fs.logged, {})
  {
    hide Covered;
    hide PtrsOwned;
    hide BitmapIs;
    hide Served;
    hide SameOthers;
    hide SameBytes;
    hide Spliced;
    hide Ptr;
    hide AllUsed;
    var panic;
    panic, addr := fs.Bmap(i, off / BSIZE);
    GrownOthers(old(fs.blocks), old(fs.ino), old(fs.owner), fs.blocks, fs.ino, fs.owner, i);
    if whole {
      MappedKept(fs.sb, old(fs.blocks), old(fs.ino), old(fs.owner), fs.blocks, fs.ino, fs.owner, i, 0, to);
    }
  }

  function Max(a: nat, b: nat): (r: nat) {
    if a < b then b else a
  }

  lemma MappedMore(blocks: seq<Block>, n: Inode, size: nat, off: nat, m: nat)
    requires Mapped(blocks, n, 0, Max(size, off)) && 0 < m && off % BSIZE + m <= BSIZE && off < MAXBYTES
    requires Ptr(blocks, n, SlotOf(off / BSIZE)) != 0
    ensures Mapped(blocks, n, 0, Max(size, off + m))
  {
    hide Ptr;
    forall bn | 0 <= bn < MAXFILE && bn * BSIZE < Max(size, off + m)
      ensures Ptr(blocks, n, SlotOf(bn)) != 0
    {
      if bn * BSIZE >= Max(size, off) {
        assert bn == off / BSIZE;
      }
    }
  }

  lemma SplicedFrom(a: seq<Block>, p: Inode, b: seq<Block>, q: Inode, c: seq<Block>, r: Inode, off: nat, src: seq<Byte>)
    requires InodeOk(a, p) && InodeOk(b, q) && InodeOk(c, r)
    requires Spliced(a, p, b, q, off, src) && Spliced(b, q, c, r, 0, [])
    ensures Spliced(a, p, c, r, off, src)
  {
    hide ByteAt;
    forall o | 0 <= o < MAXBYTES
      ensures ByteAt(c, r, o) == if off <= o < off + |src| then src[o - off] else ByteAt(a, p, o)
    {
      assert ByteAt(b, q, o) == if off <= o < off + |src| then src[o - off] else ByteAt(a, p, o);
    }
  }

  /** What writei's loop has done after `done` bytes. */
  ghost predicate Progress(sb: Superblock, blocks0: seq<Block>, ino0: seq<Inode>, blocks: seq<Block>, ino: seq<Inode>,
                           owner: Owner,
                           i: nat, off: nat, src: seq<Byte>, whole: bool)
  {
    && Own(sb, blocks, ino, owner, {}) && |ino| == |ino0| && i < |ino|
    && InodeOk(blocks0, ino0[i]) && InodeOk(blocks, ino[i])
    && SameOthers(blocks0, ino0, blocks, ino, i)
    && ino[i] == ino0[i].(addrs := ino[i].addrs)
    && Spliced(blocks0, ino0[i], blocks, ino[i], off, src)
    && (whole ==> Mapped(blocks, ino[i], 0, Max(ino0[i].size, off + |src|)))
  }

  /** The block under off, when bytes leaked into it. */
  ghost function Leaked(blocks: seq<Block>, n: Inode, off: nat, leak: nat): (r: set<nat>)
    requires InodeOk(blocks, n)
  {
    if leak > 0 && off < MAXBYTES then {Ptr(blocks, n, SlotOf(off / BSIZE))} else {}
  }

  lemma LeakedSame(blocks: seq<Block>, n: Inode, n': Inode, off: nat, leak: nat)
    requires InodeOk(blocks, n) && n'.addrs == n.addrs
    ensures InodeOk(blocks, n') && Leaked(blocks, n', off, leak) == Leaked(blocks, n, off, leak)
  {
  }

  lemma NoneLeaked(blocks: seq<Block>, n: Inode, off: nat)
    requires InodeOk(blocks, n)
    ensures Leaked(blocks, n, off, 0) == {}
  {
  }

  /** writei's loop body: false when the disk is full or the source faults. A
      source that faults `part` bytes into the chunk leaves those bytes in the
      cached block, unlogged. */
  method WriteChunk(fs: Fs, i: nat, off0: nat, src: seq<Byte>, tot: nat, m: nat, avail: nat,
                    ghost blocks0: seq<Block>, ghost ino0: seq<Inode>, ghost whole: bool)
    returns (ok: bool, part: nat, addr: nat)
    requires tot + m <= |src| && fs.outstanding > 0
    requires fs.Valid({}) && Progress(fs.sb, blocks0, ino0, fs.blocks, fs.ino, fs.owner, i, off0, src[..tot], whole)
    requires tot < |src| && m == ChunkLen(off0 + tot, |src| - tot) && off0 + |src| <= MAXBYTES
    requires whole ==> off0 <= ino0[i].size
    modifies fs`blocks, fs`ino, fs`owner, fs`logged
    ensures fs.Valid({}) && |fs.ino| == |old(fs.ino)| == |ino0|
    ensures ok ==> tot + m <= avail && addr != 0 && part == 0
    ensures !ok && addr != 0 ==> tot + m > avail && part == if avail > tot then avail - tot else 0
    ensures !ok && addr == 0 ==> part == 0 && AllUsed(fs.sb, fs.blocks)
    ensures part < m && (!ok ==> tot + part <= |src|)
    ensures Progress(fs.sb, blocks0, ino0, fs.blocks, fs.ino, fs.owner, i, off0, if ok then src[..tot + m]
                     else src[..tot + part], whole && ok)
    ensures whole ==> Mapped(fs.blocks, fs.ino[i], 0, Max(ino0[i].size, off0 + tot))
    ensures old(fs.ino)[i].addrs[NDIRECT] != 0 ==> fs.ino[i].addrs[NDIRECT] == old(fs.ino)[i].addrs[NDIRECT]
    ensures Logs(fs.sb, old(fs.logged), fs.logged, NonZero(addr), fs.ino[i].addrs[NDIRECT])
    ensures Served(fs.sb, old(fs.owner), fs.owner, i, (off0 + tot) / BSIZE, addr != 0)
            && OwnerKept(old(fs.owner), fs.owner)
    ensures InodeOk(fs.blocks, fs.ino[i])
    ensures Covered(old(fs.blocks), old(fs.logged), fs.blocks, fs.logged, Leaked(fs.blocks, fs.ino[i], off0 +
                                                                                 tot, part))
  {
    hide Covered;
    hide Served;
    hide Own;
    hide SameOthers;
    hide Spliced;
    hide Ptr;
    hide AllUsed;
    hide Splice;
    hide Mapped;
    hide BitmapBlocks;
    ghost var upto := Max(ino0[i].size, off0 + tot);
    ghost var blocks1, ino1 := fs.blocks, fs.ino;
    var off := off0 + tot;
    part := 0;
    addr := BlockUnder(fs, i, off, whole, upto);
    ghost var blocks2, ino2, logged2 := fs.blocks, fs.ino, fs.logged;
    SplicedFrom(blocks0, ino0[i], blocks1, ino1[i], blocks2, ino2[i], off0, src[..tot]);
    SameOthersTrans(blocks0, ino0, blocks1, ino1, blocks2, ino2, i);
    if addr == 0 {
      return false, 0, 0;
    }
    ok := tot + m <= avail;
    var k := if ok then m else if avail > tot then avail - tot else 0;
    part := if ok then 0 else k;
    var bytes := src[tot..tot + k];
    StoreBytes(fs, i, off, bytes, addr, ok);
    CoveredTrans(old(fs.blocks), old(fs.logged), blocks2, logged2, fs.blocks, fs.logged, if part > 0 then {addr}
                 else {});
    assert src[..tot] + bytes == src[..tot + k];
    SplicedMore(blocks0, ino0[i], blocks2, ino2[i], fs.blocks, fs.ino[i], off0, src[..tot], bytes);
    SameOthersTrans(blocks0, ino0, blocks2, ino2, fs.blocks, fs.ino, i);
    if whole && ok {
      MappedMore(fs.blocks, fs.ino[i], ino0[i].size, off, m);
    }
  }

  /** writei's argument checks. */
  predicate Refused(size: nat, off: nat, n: nat) {
    off > size || off + n >= UINT || off + n > MAXBYTES
  }

  lemma FaultInChunk(off0: nat, tot: nat, m: nat, left: nat, avail: nat)
    requires tot <= avail < tot + m && m == ChunkLen(off0 + tot, left) && (tot == 0 || Boundary(off0 + tot))
    ensures avail > tot <==> avail > 0 && !Boundary(off0 + avail)
  {
    ChunkIndex(off0 + tot, avail - tot);
  }

  lemma StartProgress(sb: Superblock, blocks: seq<Block>, ino: seq<Inode>, owner: Owner, i: nat, off: nat,
                      src: seq<Byte>)
    requires Own(sb, blocks, ino, owner, {}) && i < |ino| && off <= ino[i].size
    ensures Progress(sb, blocks, ino, blocks, ino, owner, i, off, src[..0], NoHoles(blocks, ino[i]))
  {
    hide PtrsOwned;
    hide BitmapIs;
    hide ByteAt;
    hide Ptr;
    OwnShape(sb, blocks, ino, owner, {});
    SameBytesOthers(blocks, blocks, ino, i);
  }

  /** The end of writei: extend the size and write the inode back. */
  method FinishWrite(fs: Fs, i: nat, off: nat, ghost blocks0: seq<Block>, ghost ino0: seq<Inode>, ghost off0: nat,
                     ghost done: seq<Byte>, ghost whole: bool)
    requires fs.Valid({}) && Progress(fs.sb, blocks0, ino0, fs.blocks, fs.ino, fs.owner, i, off0, done, false)
    requires fs.outstanding > 0
    requires whole ==> Mapped(fs.blocks, fs.ino[i], 0, Max(ino0[i].size, off))
    modifies fs`ino, fs`dino, fs`logged
    ensures fs.Valid({}) && |fs.ino| == |ino0|
    ensures InodeOk(fs.blocks, fs.ino[i]) && Spliced(blocks0, ino0[i], fs.blocks, fs.ino[i], off0, done)
    ensures SameOthers(blocks0, ino0, fs.blocks, fs.ino, i)
    ensures fs.ino[i] == ino0[i].(addrs := old(fs.ino)[i].addrs, size := Max(ino0[i].size, off))
    ensures fs.dino == old(fs.dino)[i := fs.ino[i]] && fs.logged == old(fs.logged) + {fs.sb.Iblock(i)}
    ensures whole ==> NoHoles(fs.blocks, fs.ino[i])
  {
    hide Own;
    hide SameOthers;
    hide SameBytes;
    hide Spliced;
    ghost var ino1 := fs.ino;
    if off > fs.ino[i].size {
      Resized(fs.sb, fs.blocks, fs.ino, fs.owner, {}, i, fs.ino[i].(size := off));
      fs.ino := fs.ino[i := fs.ino[i].(size := off)];
      SameOthersTrans(blocks0, ino0, fs.blocks, ino1, fs.blocks, fs.ino, i);
      SizeSplice(fs.blocks, ino1[i], fs.ino[i]);
      SplicedFrom(blocks0, ino0[i], fs.blocks, ino1[i], fs.blocks, fs.ino[i], off0, done);
    }
    var panic := fs.Iupdate(i);
  }

  lemma SizeSplice(blocks: seq<Block>, n: Inode, n': Inode)
    requires InodeOk(blocks, n) && n'.addrs == n.addrs
    ensures InodeOk(blocks, n') && Spliced(blocks, n, blocks, n', 0, [])
  {
    hide Word;
  }

  /** Where writei's loop stands after tot bytes. */
  ghost predicate WroteSoFar(fs: Fs, b0: seq<Block>, i0: seq<Inode>, o0: Owner, l0: set<nat>, i: nat, off: nat,
                             src: seq<Byte>,
                             tot: nat, whole: bool)
    requires tot <= |src|
    reads fs
  {
    && fs.Valid({}) && Progress(fs.sb, b0, i0, fs.blocks, fs.ino, fs.owner, i, off, src[..tot], whole)
    && Filled(o0, fs.owner, i, Sought(off / BSIZE, LookedTo(off, tot)))
    && Covered(b0, l0, fs.blocks, fs.logged, {})
  }

  /** How it ends: tot bytes are reported, leak more are in the cache. */
  ghost predicate WriteEnds(fs: Fs, b0: seq<Block>, i0: seq<Inode>, l0: set<nat>, i: nat, off: nat, src: seq<Byte>,
                            avail: nat,
                            tot: nat, leak: nat, full: bool, whole: bool)
    requires tot + leak <= |src|
    reads fs
  {
    && fs.Valid({}) && Progress(fs.sb, b0, i0, fs.blocks, fs.ino, fs.owner, i, off, src[..tot + leak], false)
    && (whole ==> Mapped(fs.blocks, fs.ino[i], 0, Max(i0[i].size, off + tot)))
    && fs.sb.Valid() && |b0| == |fs.blocks| == fs.sb.size && InodeOk(fs.blocks, fs.ino[i])
    && (full <==> Short(fs.sb, b0, i0[i], off, |src|, avail))
    && (full ==> leak == 0 && tot < |src| && AllUsed(fs.sb, fs.blocks) && StopsAt(fs.sb, b0, i0[i], off, tot))
    && (!full ==> tot + leak == Min(avail, |src|))
    && (leak > 0 <==> !full && 0 < avail < |src| && !Boundary(off + avail))
    && Needed(fs.blocks, fs.ino[i], off / BSIZE, LookedTo(off, tot)) == 0
    && Covered(b0, l0, fs.blocks, fs.logged, Leaked(fs.blocks, fs.ino[i], off + tot, leak))
  }

  /** One turn of writei's loop. */
  method WriteTurn(fs: Fs, i: nat, off0: nat, src: seq<Byte>, tot: nat, avail: nat,
                   ghost b0: seq<Block>, ghost i0: seq<Inode>, ghost o0: Owner, ghost l0: set<nat>,
                   ghost whole: bool)
    returns (ok: bool, leak: nat, full: bool, ghost addr: nat)
    requires tot < |src| && off0 + |src| <= MAXBYTES && tot <= avail && (tot == 0 || Boundary(off0 + tot))
             && fs.outstanding > 0
    requires WroteSoFar(fs, b0, i0, o0, l0, i, off0, src, tot, whole) && Own(fs.sb, b0, i0, o0, {})
             && (whole ==> off0 <= i0[i].size)
    modifies fs`blocks, fs`ino, fs`owner, fs`logged
    ensures |fs.ino| == |old(fs.ino)| && i < |fs.ino| && |fs.ino[i].addrs| == |old(fs.ino)[i].addrs| == NDIRECT + 1
    ensures var m := ChunkLen(off0 + tot, |src| - tot);
            && (ok ==> tot + m <= avail && tot + m <= |src|
                       && WroteSoFar(fs, b0, i0, o0, l0, i, off0, src, tot + m, whole))
            && (!ok ==> tot + leak <= |src| && WriteEnds(fs, b0, i0, l0, i, off0, src, avail, tot, leak, full, whole))
    ensures old(fs.ino)[i].addrs[NDIRECT] != 0 ==> fs.ino[i].addrs[NDIRECT] == old(fs.ino)[i].addrs[NDIRECT]
    ensures Logs(fs.sb, old(fs.logged), fs.logged, NonZero(addr), fs.ino[i].addrs[NDIRECT])
  {
    hide InodeOk;
    hide Covered;
    hide Leaked;
    hide Own;
    hide Progress;
    hide AllUsed;
    hide Mapped;
    hide Logs;
    hide NonZero;
    hide Boundary;
    hide ChunkLen;
    hide Filled;
    hide Served;
    hide Sought;
    hide HeldSlots;
    hide LookedTo;
    hide LookEnd;
    hide Short;
    hide StopsAt;
    hide Needed;
    hide OwnerKept;
    hide WriteEnds;
    leak, full := 0, false;
    LookStep(off0, tot, |src|);
    LookEnds(off0, tot, |src|, avail);
    ChunkFits(off0 + tot, |src| - tot);
    var m := ChunkLen(off0 + tot, |src| - tot);
    ghost var b1, o1, l1 := fs.blocks, fs.owner, fs.logged;
    ghost var bn := (off0 + tot) / BSIZE;
    ProgressShape(fs.sb, b0, i0, fs.blocks, fs.ino, fs.owner, i, off0, src[..tot], whole);
    OwnerFits(fs.sb, b0, i0, o0);
    OwnerFits(fs.sb, fs.blocks, fs.ino, fs.owner);
    var part, at;
    ok, part, at := WriteChunk(fs, i, off0, src, tot, m, avail, b0, i0, whole);
    addr := at;
    CoveredTrans(b0, l0, b1, l1, fs.blocks, fs.logged, Leaked(fs.blocks, fs.ino[i], off0 + tot, part));
    NoneLeaked(fs.blocks, fs.ino[i], off0 + tot);
    ProgressShape(fs.sb, b0, i0, fs.blocks, fs.ino, fs.owner, i, off0, if ok then src[..tot + m]
                  else src[..tot + part], whole && ok);
    OwnerFits(fs.sb, fs.blocks, fs.ino, fs.owner);
    ServedNext(fs.sb, o0, o1, fs.owner, i, off0 / BSIZE, bn, at != 0);
    if !ok {
      full := at == 0;
      leak := part;
      if !full {
        WriteFaulted(fs, b0, i0, o0, l0, i, off0, src, avail, tot, leak, whole);
      } else {
        WriteShort(fs, b0, i0, o0, o1, l0, i, off0, src, avail, tot, whole);
      }
    }
  }

  /** The source faulted in this turn. */
  lemma WriteFaulted(fs: Fs, b0: seq<Block>, i0: seq<Inode>, o0: Owner, l0: set<nat>, i: nat, off: nat, src: seq<Byte>,
                     avail: nat,
                     tot: nat, leak: nat, whole: bool)
    requires tot < |src| && off + |src| <= MAXBYTES && tot <= avail && (tot == 0 || Boundary(off + tot)) && i < |fs.ino|
             && tot + leak <= |src|
    requires avail < tot + ChunkLen(off + tot, |src| - tot) && leak == avail - tot && Own(fs.sb, b0, i0, o0, {})
    requires fs.Valid({}) && Progress(fs.sb, b0, i0, fs.blocks, fs.ino, fs.owner, i, off, src[..tot + leak], false)
    requires whole ==> Mapped(fs.blocks, fs.ino[i], 0, Max(i0[i].size, off + tot))
    requires Filled(o0, fs.owner, i, Sought(off / BSIZE, (off + tot) / BSIZE + 1))
    requires InodeOk(fs.blocks, fs.ino[i])
             && Covered(b0, l0, fs.blocks, fs.logged, Leaked(fs.blocks, fs.ino[i], off + tot, leak))
    ensures WriteEnds(fs, b0, i0, l0, i, off, src, avail, tot, leak, false, whole)
  {
    hide Covered;
    hide Leaked;
    hide Own;
    hide Progress;
    hide Mapped;
    hide Boundary;
    hide ChunkLen;
    hide Filled;
    hide Sought;
    hide LookedTo;
    hide LookEnd;
    hide Short;
    hide Needed;
    var bn := (off + tot) / BSIZE;
    ProgressShape(fs.sb, b0, i0, fs.blocks, fs.ino, fs.owner, i, off, src[..tot + leak], false);
    OwnerFits(fs.sb, b0, i0, o0);
    OwnerFits(fs.sb, fs.blocks, fs.ino, fs.owner);
    LookStep(off, tot, |src|);
    LookEnds(off, tot, |src|, avail);
    ChunkFits(off + tot, |src| - tot);
    FaultInChunk(off, tot, ChunkLen(off + tot, |src| - tot), |src| - tot, avail);
    NotShort(fs.sb, b0, i0, o0, fs.owner, i, off, |src|, avail, bn + 1);
    NoneEmpty(fs.sb, fs.blocks, fs.ino, o0, fs.owner, i, off, tot, bn + 1);
  }

  /** The disk was full in this turn. */
  lemma WriteShort(fs: Fs, b0: seq<Block>, i0: seq<Inode>, o0: Owner, o1: Owner, l0: set<nat>, i: nat, off: nat,
                   src: seq<Byte>,
                   avail: nat, tot: nat, whole: bool)
    requires tot < |src| && off + |src| <= MAXBYTES && tot <= avail && (tot == 0 || Boundary(off + tot)) && i < |fs.ino|
    requires fs.Valid({}) && Progress(fs.sb, b0, i0, fs.blocks, fs.ino, fs.owner, i, off, src[..tot], false)
             && Own(fs.sb, b0, i0, o0, {})
    requires whole ==> Mapped(fs.blocks, fs.ino[i], 0, Max(i0[i].size, off + tot))
    requires fs.sb.Valid() && |fs.blocks| == fs.sb.size && AllUsed(fs.sb, fs.blocks) && |o1| <= fs.sb.size - fs.sb.data
    requires Filled(o0, o1, i, Sought(off / BSIZE, LookedTo(off, tot))) && OwnerKept(o1, fs.owner)
    requires |Sought(off / BSIZE, (off + tot) / BSIZE + 1) - HeldSlots(o0, i)| + |o0| > fs.sb.size - fs.sb.data
    requires InodeOk(fs.blocks, fs.ino[i])
             && Covered(b0, l0, fs.blocks, fs.logged, Leaked(fs.blocks, fs.ino[i], off + tot, 0))
    ensures WriteEnds(fs, b0, i0, l0, i, off, src, avail, tot, 0, true, whole)
  {
    hide Covered;
    hide Leaked;
    hide Own;
    hide Progress;
    hide Mapped;
    hide Boundary;
    hide AllUsed;
    hide Filled;
    hide Sought;
    hide HeldSlots;
    hide LookedTo;
    hide LookEnd;
    hide Short;
    hide StopsAt;
    hide Needed;
    hide OwnerKept;
    assert src[..tot + 0] == src[..tot];
    ProgressShape(fs.sb, b0, i0, fs.blocks, fs.ino, fs.owner, i, off, src[..tot], false);
    OwnerFits(fs.sb, b0, i0, o0);
    Stops(fs.sb, b0, i0, o0, o1, i, off, tot, |src|, avail);
    StillHeld(fs.sb, fs.blocks, fs.ino, o0, o1, fs.owner, i, off, tot);
  }

  /** writei's loop. */
  method WriteChunks(fs: Fs, i: nat, off0: nat, src: seq<Byte>, avail: nat, ghost whole: bool)
    returns (tot: nat, leak: nat, full: bool, ghost datas: set<nat>)
    requires fs.Valid({}) && i < |fs.ino| && off0 + |src| <= MAXBYTES && (whole ==> off0 <= fs.ino[i].size)
    requires Progress(fs.sb, fs.blocks, fs.ino, fs.blocks, fs.ino, fs.owner, i, off0, src[..0], whole)
             && fs.outstanding > 0
    modifies fs`blocks, fs`ino, fs`owner, fs`logged
    ensures tot + leak <= |src|
            && WriteEnds(fs, old(fs.blocks), old(fs.ino), old(fs.logged), i, off0, src, avail, tot, leak, full, whole)
    ensures |fs.ino| == |old(fs.ino)| && |datas| <= Spanned(off0, |src|) && |fs.ino[i].addrs| == NDIRECT + 1
    ensures Logs(fs.sb, old(fs.logged), fs.logged, datas, fs.ino[i].addrs[NDIRECT])
  {
    hide Own;
    hide Progress;
    hide WroteSoFar;
    hide WriteEnds;
    hide Logs;
    hide NonZero;
    hide Spanned;
    hide Boundary;
    hide ChunkLen;
    hide Filled;
    hide Sought;
    hide LookedTo;
    hide LookEnd;
    leak, full, datas := 0, false, {};
    tot := 0;
    ghost var b0, i0, o0, l0 := fs.blocks, fs.ino, fs.owner, fs.logged;
    ProgressShape(fs.sb, b0, i0, fs.blocks, fs.ino, fs.owner, i, off0, src[..0], whole);
    WriteStarts(fs, i, off0, src, avail, whole);
    SpannedBounds(off0, |src|);
    LogsNothing(fs.sb, fs.logged, fs.ino[i].addrs[NDIRECT]);
    while tot < |src|
      invariant 0 <= tot <= |src| && tot <= avail && (tot == 0 || tot == |src| || Boundary(off0 + tot)) && leak == 0
                && !full
      invariant WroteSoFar(fs, b0, i0, o0, l0, i, off0, src, tot, whole) && |fs.ino| == |i0|
                && |fs.ino[i].addrs| == NDIRECT + 1
      invariant |datas| <= Spanned(off0, tot) <= Spanned(off0, |src|)
      invariant Logs(fs.sb, old(fs.logged), fs.logged, datas, fs.ino[i].addrs[NDIRECT])
      invariant tot == |src| ==> LookedTo(off0, tot) == LookEnd(off0, |src|, avail)
    {
      SpannedStep(off0, tot, |src|);
      LookStep(off0, tot, |src|);
      LookEnds(off0, tot, |src|, avail);
      ChunkFits(off0 + tot, |src| - tot);
      ghost var logged1, ind1 := fs.logged, fs.ino[i].addrs[NDIRECT];
      var ok;
      ghost var addr;
      ok, leak, full, addr := WriteTurn(fs, i, off0, src, tot, avail, b0, i0, o0, l0, whole);
      LogsStep(fs.sb, old(fs.logged), logged1, fs.logged, datas, ind1, fs.ino[i].addrs[NDIRECT], addr);
      datas := datas + NonZero(addr);
      if !ok {
        return;
      }
      leak, full := 0, false;
      tot := tot + ChunkLen(off0 + tot, |src| - tot);
    }
    WroteAll(fs, b0, i0, o0, l0, i, off0, src, avail, whole);
  }

  lemma WriteStarts(fs: Fs, i: nat, off: nat, src: seq<Byte>, avail: nat, whole: bool)
    requires fs.Valid({}) && Progress(fs.sb, fs.blocks, fs.ino, fs.blocks, fs.ino, fs.owner, i, off, src[..0], whole)
    ensures WroteSoFar(fs, fs.blocks, fs.ino, fs.owner, fs.logged, i, off, src, 0, whole)
            && LookedTo(off, 0) == LookEnd(off, 0, avail)
  {
    hide Covered;
    CoveredNone(fs.blocks, fs.logged);
    hide Own;
    hide Progress;
    hide Filled;
    hide Sought;
    FillStarts(fs.sb, fs.blocks, fs.ino, fs.owner, i, off, avail);
  }

  lemma WroteAll(fs: Fs, b0: seq<Block>, i0: seq<Inode>, o0: Owner, l0: set<nat>, i: nat, off: nat, src: seq<Byte>,
                 avail: nat,
                 whole: bool)
    requires WroteSoFar(fs, b0, i0, o0, l0, i, off, src, |src|, whole) && Own(fs.sb, b0, i0, o0, {}) && |src| <= avail
    requires LookedTo(off, |src|) == LookEnd(off, |src|, avail) && off + |src| <= MAXBYTES
    ensures WriteEnds(fs, b0, i0, l0, i, off, src, avail, |src|, 0, false, whole)
  {
    hide Covered;
    hide Leaked;
    hide Own;
    hide Progress;
    hide Filled;
    hide Sought;
    hide Mapped;
    hide LookedTo;
    hide LookEnd;
    hide Needed;
    hide Short;
    hide Boundary;
    ProgressShape(fs.sb, b0, i0, fs.blocks, fs.ino, fs.owner, i, off, src[..|src|], whole);
    NoneLeaked(fs.blocks, fs.ino[i], off + |src|);
    assert src[..|src|] == src[..|src| + 0];
    OwnerFits(fs.sb, b0, i0, o0);
    OwnerFits(fs.sb, fs.blocks, fs.ino, fs.owner);
    LookedBound(off, |src|);
    NotShort(fs.sb, b0, i0, o0, fs.owner, i, off, |src|, avail, LookEnd(off, |src|, avail));
    NoneEmpty(fs.sb, fs.blocks, fs.ino, o0, fs.owner, i, off, |src|, LookedTo(off, |src|));
  }

  /** Everything logged since `before` is one of the data blocks, the indirect
      block or a bitmap block. */
  ghost predicate Logs(sb: Superblock, before: set<nat>, logged: set<nat>, datas: set<nat>, ind: nat) {
    logged <= before + datas + NonZero(ind) + BitmapBlocks(sb)
  }

  lemma LogsStep(sb: Superblock, before: set<nat>, l1: set<nat>, l2: set<nat>, datas: set<nat>, ind1: nat, ind2: nat,
                 addr: nat)
    requires Logs(sb, before, l1, datas, ind1) && Logs(sb, l1, l2, NonZero(addr), ind2)
    requires ind1 != 0 ==> ind2 == ind1
    ensures Logs(sb, before, l2, datas + NonZero(addr), ind2)
    ensures |datas + NonZero(addr)| <= |datas| + 1
  {
    hide BitmapBlocks;
  }

  lemma LogsNothing(sb: Superblock, logged: set<nat>, ind: nat)
    ensures Logs(sb, logged, logged, {}, ind)
  {
  }

  lemma SpannedBounds(off: nat, n: nat)
    ensures 0 == Spanned(off, 0) <= Spanned(off, n)
  {
  }

  lemma ProgressShape(sb: Superblock, blocks0: seq<Block>, ino0: seq<Inode>, blocks: seq<Block>, ino: seq<Inode>,
                      owner: Owner,
                      i: nat, off: nat, src: seq<Byte>, whole: bool)
    requires Progress(sb, blocks0, ino0, blocks, ino, owner, i, off, src, whole)
    ensures Progress(sb, blocks0, ino0, blocks, ino, owner, i, off, src, false)
    ensures |ino| == |ino0| && i < |ino| && |ino[i].addrs| == NDIRECT + 1 && InodeOk(blocks0, ino0[i])
            && InodeOk(blocks, ino[i])
    ensures whole ==> Mapped(blocks, ino[i], 0, Max(ino0[i].size, off + |src|))
  {
    hide Own;
    hide SameOthers;
    hide Spliced;
    hide Mapped;
  }

  /** writei. `avail` is how many bytes of the source can be read before it
      faults. The file is as if the first r + leak bytes had been spliced in;
      r is what the caller is told and what is logged. leak is not 0 exactly
      when the source faults inside a block after some of its bytes had been
      copied, and blocks did not run short before: those bytes stay in the cached
      block, unlogged and unreported. */
  method Writei(fs: Fs, i: nat, off0: nat, src: seq<Byte>, avail: nat)
      returns (panic: bool, r: int, leak: nat, full: bool, ghost datas: set<nat>)
    requires fs.Valid({}) && i < |fs.ino| && off0 < UINT && |src| < UINT && fs.ino[i].size <= MAXBYTES
    modifies fs`blocks, fs`ino, fs`dino, fs`owner, fs`logged
    ensures r == -1 <==> Refused(old(fs.ino)[i].size, off0, |src|)
    ensures panic <==> fs.outstanding == 0 && !Refused(old(fs.ino)[i].size, off0, |src|)
    ensures r == -1 ==> fs.blocks == old(fs.blocks) && fs.ino == old(fs.ino) && fs.dino == old(fs.dino)
                        && fs.owner == old(fs.owner) && fs.logged == old(fs.logged) && leak == 0 && !full
    ensures r != -1 && !panic ==>
              && 0 <= r <= r + leak <= |src| && fs.Valid({}) && |fs.ino| == |old(fs.ino)|
              && InodeOk(old(fs.blocks), old(fs.ino)[i]) && InodeOk(fs.blocks, fs.ino[i])
              && Spliced(old(fs.blocks), old(fs.ino)[i], fs.blocks, fs.ino[i], off0, src[..r + leak])
              && SameOthers(old(fs.blocks), old(fs.ino), fs.blocks, fs.ino, i)
              && fs.ino[i] == old(fs.ino)[i].(addrs := fs.ino[i].addrs, size := Max(old(fs.ino)[i].size, off0 + r))
              && fs.dino == old(fs.dino)[i := fs.ino[i]]
              && (NoHoles(old(fs.blocks), old(fs.ino)[i]) ==> NoHoles(fs.blocks, fs.ino[i]))
              && (full ==> leak == 0 && r < |src| && AllUsed(fs.sb, fs.blocks))
              && fs.sb.Valid() && |old(fs.blocks)| == fs.sb.size
              && (full <==> Short(fs.sb, old(fs.blocks), old(fs.ino)[i], off0, |src|, avail))
              && (full ==> StopsAt(fs.sb, old(fs.blocks), old(fs.ino)[i], off0, r))
              && Needed(fs.blocks, fs.ino[i], off0 / BSIZE, LookedTo(off0, r)) == 0
              && (!full ==> r + leak == Min(avail, |src|))
              && (leak > 0 <==>
                    !Short(fs.sb, old(fs.blocks), old(fs.ino)[i], off0, |src|, avail) && 0 < avail < |src|
                      && !Boundary(off0 + avail))
              && |datas| <= Spanned(off0, |src|)
              && Logs(fs.sb, old(fs.logged) + {fs.sb.Iblock(i)}, fs.logged, datas, fs.ino[i].addrs[NDIRECT])
              && InodesCovered(fs.sb, old(fs.dino), fs.dino, fs.logged)
              && Covered(old(fs.blocks), old(fs.logged), fs.blocks, fs.logged,
                         Leaked(fs.blocks, fs.ino[i], off0 + r, leak))
    ensures old(fs.OnDisk()) && !panic ==> fs.OnDisk()
  {
    hide Covered;
    hide Leaked;
    hide InodesCovered;
    hide Own;
    hide SameOthers;
    hide SameBytes;
    hide Spliced;
    hide Ptr;
    hide AllUsed;
    hide Mapped;
    hide BitmapBlocks;
    hide Short;
    hide StopsAt;
    hide Needed;
    hide LookedTo;
    hide Boundary;
    hide Spanned;
    hide Progress;
    panic, leak, full, datas := false, 0, false, {};
    var n := |src|;
    if off0 > fs.ino[i].size || off0 + n >= UINT {
      return false, -1, 0, false, {};
    }
    if off0 + n > MAXFILE * BSIZE {
      return false, -1, 0, false, {};
    }
    if fs.outstanding == 0 {
      // The first log_write to come, iupdate's if there is none before, panics.
      return true, 0, 0, false, {};
    }
    ghost var whole := NoHoles(fs.blocks, fs.ino[i]);
    ghost var blocks0, ino0 := fs.blocks, fs.ino;
    StartProgress(fs.sb, fs.blocks, fs.ino, fs.owner, i, off0, src);
    var tot: nat;
    tot, leak, full, datas := WriteChunks(fs, i, off0, src, avail, whole);
    ProgressShape(fs.sb, blocks0, ino0, fs.blocks, fs.ino, fs.owner, i, off0, src[..tot + leak], false);
    ghost var n1, logged1 := fs.ino[i], fs.logged;
    FinishWrite(fs, i, off0 + tot, blocks0, ino0, off0, src[..tot + leak], whole);
    LeakedSame(fs.blocks, n1, fs.ino[i], off0 + tot, leak);
    CoveredMore(blocks0, old(fs.logged), fs.blocks, logged1, fs.logged, Leaked(fs.blocks, n1, off0 + tot, leak));
    OneInode(fs.sb, old(fs.dino), i, fs.ino[i], fs.logged);
    NeededSame(fs.blocks, n1, fs.ino[i], off0 / BSIZE, LookedTo(off0, tot));
    Synced(blocks0, ino0, fs.blocks, fs.ino, i);
    r := tot;
  }

  // ---------- filewrite ----------

  /** filewrite's chunk size. */
  const CHUNK := (MAXOPBLOCKS - 1 - 1 - 2) / 2 * BSIZE

  lemma UnionCount(a: set<nat>, b: set<nat>)
    ensures |a + b| <= |a| + |b|
  {
    assert a + b == a + (b - a);
    assert b == (b - a) + (a * b);
  }

  /** On a disk with one bitmap block, one chunk of filewrite logs at most seven
      distinct blocks: four data blocks, the indirect block, the bitmap block
      and the inode block. */
  lemma ChunkLogs(sb: Superblock, off: nat, n: nat, logged: set<nat>, datas: set<nat>, ind: nat, inode: nat)
    requires 0 < sb.size <= BPB && n <= CHUNK && |datas| <= Spanned(off, n) && Logs(sb, {inode}, logged, datas, ind)
    ensures |logged| <= 7
  {
    hide BitmapBlocks;
    hide Spanned;
    var z, m := NonZero(ind), BitmapBlocks(sb);
    OneBitmapBlock(sb);
    ShortSpan(off, n);
    UnionCount({inode}, datas);
    UnionCount({inode} + datas, z);
    UnionCount({inode} + datas + z, m);
    SubsetCount(logged, {inode} + datas + z + m);
  }

  lemma OneBitmapBlock(sb: Superblock)
    requires 0 < sb.size <= BPB
    ensures |BitmapBlocks(sb)| == 1
  {
    hide Interval;
  }

  lemma ShortSpan(off: nat, n: nat)
    requires n <= CHUNK
    ensures Spanned(off, n) <= 4
  {
  }

  /** One begin_op .. end_op of filewrite. */
  method WriteOp(fs: Fs, i: nat, off: nat, src: seq<Byte>, avail: nat) returns (r: int, leak: nat)
    requires fs.Valid({}) && i < |fs.ino| && off < UINT && |src| <= CHUNK && fs.ino[i].size <= MAXBYTES
    modifies fs
    ensures r == -1 <==> Refused(old(fs.ino)[i].size, off, |src|)
    ensures r == -1 ==> leak == 0 && fs.blocks == old(fs.blocks) && fs.ino == old(fs.ino) && fs.owner == old(fs.owner)
                        && fs.dino == old(fs.dino)
    ensures r != -1 ==>
              && 0 <= r <= r + leak <= |src|
              && |fs.ino| == |old(fs.ino)| && InodeOk(old(fs.blocks), old(fs.ino)[i]) && InodeOk(fs.blocks, fs.ino[i])
              && Spliced(old(fs.blocks), old(fs.ino)[i], fs.blocks, fs.ino[i], off, src[..r + leak])
              && SameOthers(old(fs.blocks), old(fs.ino), fs.blocks, fs.ino, i)
              && fs.ino[i].size == Max(old(fs.ino)[i].size, off + r)
              && (leak > 0 ==> r < |src|)
              && Covered(old(fs.blocks), {}, fs.blocks, fs.logged, Leaked(fs.blocks, fs.ino[i], off + r, leak))
              && InodesCovered(fs.sb, old(fs.dino), fs.dino, fs.logged)
    ensures fs.Valid({})
    ensures r != -1 && r < |src| ==> avail < |src| || AllUsed(fs.sb, fs.blocks)
    ensures fs.sb.size <= BPB ==> |fs.logged| <= 7
    ensures old(fs.OnDisk()) ==> fs.OnDisk()
    ensures fs.outstanding == old(fs.outstanding)
  {
    hide Covered;
    hide Leaked;
    hide InodesCovered;
    hide Own;
    hide SameOthers;
    hide Spliced;
    hide Ptr;
    hide AllUsed;
    hide Mapped;
    hide BitmapBlocks;
    hide Spanned;
    hide Logs;
    fs.logged := {};
    fs.outstanding := fs.outstanding + 1;
    var panic, full;
    ghost var datas;
    ghost var sizes := fs.sb.size;
    panic, r, leak, full, datas := Writei(fs, i, off, src, avail);
    fs.outstanding := fs.outstanding - 1;
    if r != -1 && fs.sb.size <= BPB {
      assert {} + {fs.sb.Iblock(i)} == {fs.sb.Iblock(i)};
      SizePositive(fs.sb, fs.blocks, fs.ino, fs.owner);
      ChunkLogs(fs.sb, off, |src|, fs.logged, datas, fs.ino[i].addrs[NDIRECT], fs.sb.Iblock(i));
    }
  }

  lemma SizePositive(sb: Superblock, blocks: seq<Block>, ino: seq<Inode>, owner: Owner)
    requires Own(sb, blocks, ino, owner, {})
    ensures sb.size > 0
  {
  }

  /** filewrite on an inode: one transaction per chunk. The file ends up with the
      first `done` bytes spliced in at the old offset (plus what a faulting
      source left in the cache), and the offset advances by exactly `done`. */
  method Filewrite(fs: Fs, i: nat, off0: nat, src: seq<Byte>, avail: nat)
      returns (ret: int, off: nat, done: nat, leak: nat)
    requires fs.Valid({}) && i < |fs.ino| && off0 < UINT && fs.ino[i].size <= MAXBYTES
    modifies fs
    ensures ret == if done == |src| then |src| else -1
    ensures off == off0 + done && done + leak <= |src| && fs.Valid({}) && |fs.ino| == |old(fs.ino)|
    ensures InodeOk(old(fs.blocks), old(fs.ino)[i]) && InodeOk(fs.blocks, fs.ino[i])
    ensures Spliced(old(fs.blocks), old(fs.ino)[i], fs.blocks, fs.ino[i], off0, src[..done + leak])
    ensures SameOthers(old(fs.blocks), old(fs.ino), fs.blocks, fs.ino, i)
    ensures done > 0 ==> fs.ino[i].size == Max(old(fs.ino)[i].size, off0 + done)
    ensures done == |src| ==> leak == 0
    ensures done < |src| ==>
              || avail < |src| || off0 > old(fs.ino)[i].size || off0 + |src| > MAXBYTES
              || AllUsed(fs.sb, fs.blocks)
    ensures old(fs.OnDisk()) ==> fs.OnDisk()
  {
    hide Covered;
    hide InodesCovered;
    hide Leaked;
    hide InodeOk;
    hide Own;
    hide SameOthers;
    hide SameBytes;
    hide Spliced;
    hide AllUsed;
    off, done, leak := off0, 0, 0;
    StartSame(fs.sb, fs.blocks, fs.ino, fs.owner, i, off0, src);
    while done < |src|
      invariant 0 <= done <= |src| && off == off0 + done && leak == 0
      invariant fs.Valid({}) && |fs.ino| == |old(fs.ino)| && fs.ino[i].size <= MAXBYTES
      invariant InodeOk(old(fs.blocks), old(fs.ino)[i]) && InodeOk(fs.blocks, fs.ino[i])
      invariant Spliced(old(fs.blocks), old(fs.ino)[i], fs.blocks, fs.ino[i], off0, src[..done])
      invariant SameOthers(old(fs.blocks), old(fs.ino), fs.blocks, fs.ino, i)
      invariant fs.ino[i].size == if done > 0 then Max(old(fs.ino)[i].size, off0 + done) else old(fs.ino)[i].size
      invariant old(fs.OnDisk()) ==> fs.OnDisk()
    {
      var n1 := Min(|src| - done, CHUNK);
      ghost var blocks1, ino1 := fs.blocks, fs.ino;
      var r;
      r, leak := WriteOp(fs, i, off, src[done..done + n1], if avail > done then avail - done else 0);
      if r != -1 {
        assert src[..done] + src[done..done + n1][..r + leak] == src[..done + r + leak];
        SplicedMore(old(fs.blocks), old(fs.ino)[i], blocks1, ino1[i], fs.blocks, fs.ino[i], off0, src[..done],
                    src[done..done + n1][..r + leak]);
        SameOthersTrans(old(fs.blocks), old(fs.ino), blocks1, ino1, fs.blocks, fs.ino, i);
      }
      if r > 0 {
        off := off + r;
      }
      if r != n1 {
        done := if r > 0 then done + r else done;
        break;
      }
      done := done + r;
    }
    ret := if done == |src| then |src| else -1;
  }

  lemma StartSame(sb: Superblock, blocks: seq<Block>, ino: seq<Inode>, owner: Owner, i: nat, off: nat, src: seq<Byte>)
    requires Own(sb, blocks, ino, owner, {}) && i < |ino|
    ensures InodeOk(blocks, ino[i]) && Spliced(blocks, ino[i], blocks, ino[i], off, src[..0])
            && SameOthers(blocks, ino, blocks, ino, i)
  {
    hide ByteAt;
    hide BitmapIs;
    OwnShape(sb, blocks, ino, owner, {});
    SameBytesOthers(blocks, blocks, ino, i);
  }

  /** Reading back what an operation wrote returns it, across direct and indirect
      blocks, whatever the alignment, and whatever holes the file has elsewhere; the
      read need not be in an operation. */
  method WriteThenRead(fs: Fs, i: nat, off: nat, src: seq<Byte>) returns (panic: bool, w: int, r: int, got: seq<Byte>)
    requires fs.Valid({}) && i < |fs.ino| && off < UINT && |src| < UINT && fs.ino[i].size <= MAXBYTES
    modifies fs
    ensures !panic
    ensures w >= 0 ==> r == w <= |src| && got == src[..w]
  {
    hide Own;
    hide SameOthers;
    hide SameBytes;
    hide Ptr;
    hide AllUsed;
    hide Mapped;
    hide ByteAt;
    hide BitmapBlocks;
    hide Needed;
    hide Short;
    hide StopsAt;
    hide LookedTo;
    hide LookEnd;
    hide ReadLeaves;
    hide LooksForBlock;
    hide Boundary;
    var leak, full;
    ghost var datas;
    fs.outstanding := fs.outstanding + 1;
    panic, w, leak, full, datas := Writei(fs, i, off, src, |src|);
    fs.outstanding := fs.outstanding - 1;
    r, got := 0, [];
    if w >= 0 {
      OwnerFits(fs.sb, fs.blocks, fs.ino, fs.owner);
      NothingShort(fs.sb, fs.blocks, fs.ino[i], off, w);
      panic, r, got := Readi(fs, i, off, w, w);
    }
  }

  lemma NothingShort(sb: Superblock, blocks: seq<Block>, n: Inode, off: nat, w: nat)
    requires sb.Valid() && |blocks| == sb.size && InodeOk(blocks, n)
             && Needed(blocks, n, off / BSIZE, LookedTo(off, w)) == 0
    ensures !Short(sb, blocks, n, off, w, w) && !LooksForBlock(sb, blocks, n, off, w, w)
  {
    hide Needed;
    assert LookEnd(off, w, w) == LookedTo(off, w);
  }

  /** Where no slot looked up is empty, nothing is needed. */
  lemma MappedNeedNone(blocks: seq<Block>, n: Inode, off: nat, want: nat, limit: nat)
    requires Mapped(blocks, n, off / BSIZE, off + want) && off + want <= MAXBYTES
    ensures Needed(blocks, n, off / BSIZE, LookEnd(off, want, limit)) == 0
  {
    var lo, hi := off / BSIZE, LookEnd(off, want, limit);
    forall k | k in Sought(lo, hi)
      ensures Ptr(blocks, n, k) != 0
    {
      var bn := if k < NDIRECT then k else if k == NDIRECT then hi - 1 else k - 1;
      assert bn < MAXFILE && bn * BSIZE < off + want;
      assert Ptr(blocks, n, SlotOf(bn)) != 0;
    }
    assert Empty(blocks, n, Sought(lo, hi)) == {};
  }
}
