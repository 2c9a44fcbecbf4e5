/** Directories on disk: dirlookup and dirlink in kernel/fs.c as they are, over
    readi and writei of 16-byte entries. What they do to the bytes is what the
    operations of Directory do to a sequence of entries. */
module DirFile {
  import opened Base
  import opened Blocks
  import opened FsLayout
  import opened Ownership
  import opened Fs
  import opened FileIo
  import opened Demand
  import D = Directory

  /** sizeof(struct dirent) */
  const DESIZE: nat := 16

  predicate Storable(e: D.Dirent) {
    e.inum < 65536
  }

  function Encode(e: D.Dirent): (s: seq<Byte>)
    requires Storable(e)
    ensures |s| == DESIZE
  {
    [e.inum % 256, e.inum / 256] + e.name
  }

  function Decode(s: seq<Byte>): (e: D.Dirent)
    requires |s| == DESIZE
  {
    var low: nat := s[0];
    var high: nat := s[1];
    D.Dirent(low + 256 * high, s[2..])
  }

  lemma DecodeEncode(e: D.Dirent)
    requires Storable(e)
    ensures Decode(Encode(e)) == e
  {
    assert Encode(e)[2..] == e.name;
  }

  /** Entry k of file n is e. */
  ghost predicate EntryIs(blocks: seq<Block>, n: Inode, k: nat, e: D.Dirent)
    requires InodeOk(blocks, n)
  {
    Storable(e) && DESIZE * k + DESIZE <= MAXBYTES && forall j :: 0 <= j < DESIZE ==>
        ByteAt(blocks, n, DESIZE * k + j) == Encode(e)[j]
  }

  /** File n is the directory es. */
  ghost predicate Holds(blocks: seq<Block>, n: Inode, es: seq<D.Dirent>) {
    InodeOk(blocks, n) && n.size == DESIZE * |es| && n.size <= MAXBYTES && forall k: nat :: k < |es| ==>
        EntryIs(blocks, n, k, es[k])
  }

  /** What reading does: blocks may be added to inode i where it has holes, and
      nothing else. */
  ghost predicate Steady(blocks: seq<Block>, ino: seq<Inode>, blocks': seq<Block>, ino': seq<Inode>, i: nat) {
    && |ino'| == |ino| && i < |ino| && (forall j :: 0 <= j < |ino| && j != i ==> ino'[j] == ino[j])
    && ino'[i] == ino[i].(addrs := ino'[i].addrs) && SameBytes(blocks, ino, blocks', ino')
    && (NoHoles(blocks, ino[i]) ==> blocks' == blocks && ino' == ino)
  }

  lemma SteadyTrans(a: seq<Block>, p: seq<Inode>, b: seq<Block>, q: seq<Inode>, c: seq<Block>, r: seq<Inode>, i: nat)
    requires Steady(a, p, b, q, i) && Steady(b, q, c, r, i)
    ensures Steady(a, p, c, r, i)
  {
    hide SameBytes;
    hide NoHoles;
    SameBytesTrans(a, p, b, q, c, r);
  }

  lemma SteadyRefl(sb: Superblock, blocks: seq<Block>, ino: seq<Inode>, owner: Owner, i: nat)
    requires Own(sb, blocks, ino, owner, {}) && i < |ino|
    ensures Steady(blocks, ino, blocks, ino, i)
  {
    hide ByteAt;
    OwnShape(sb, blocks, ino, owner, {});
  }

  lemma SteadyHolds(a: seq<Block>, p: seq<Inode>, b: seq<Block>, q: seq<Inode>, i: nat, es: seq<D.Dirent>)
    requires Steady(a, p, b, q, i) && Holds(a, p[i], es)
    ensures Holds(b, q[i], es)
  {
    hide ByteAt;
    hide Encode;
    hide NoHoles;
    forall k: nat | k < |es|
      ensures EntryIs(b, q[i], k, es[k])
    {
      assert EntryIs(a, p[i], k, es[k]);
    }
  }

  lemma SteadyOthers(a: seq<Block>, p: seq<Inode>, b: seq<Block>, q: seq<Inode>, i: nat)
    requires Steady(a, p, b, q, i)
    ensures SameOthers(a, p, b, q, i)
  {
    hide ByteAt;
    hide NoHoles;
  }

  lemma OthersTrans(a: seq<Block>, p: seq<Inode>, b: seq<Block>, q: seq<Inode>, c: seq<Block>, r: seq<Inode>, i: nat)
    requires Steady(a, p, b, q, i) && SameOthers(b, q, c, r, i)
    ensures SameOthers(a, p, c, r, i)
  {
    hide Steady;
    hide SameOthers;
    SteadyOthers(a, p, b, q, i);
    SameOthersTrans(a, p, b, q, c, r, i);
  }

  lemma NoHolesFit(blocks: seq<Block>, n: Inode, off: nat)
    requires InodeOk(blocks, n) && off + DESIZE <= n.size <= MAXBYTES
    ensures NoHoles(blocks, n) ==> Needed(blocks, n, off / BSIZE, LookEnd(off, DESIZE, DESIZE)) == 0
  {
    hide Ptr;
    if NoHoles(blocks, n) {
      MappedNeedNone(blocks, n, off, DESIZE, DESIZE);
    }
  }

  // ---------- how far the scans get ----------

  /** The blocks there are to fill holes with: outside of an operation, none. */
  ghost function Avail(sb: Superblock, blocks: seq<Block>, outstanding: nat): (r: nat)
    requires sb.Valid() && |blocks| == sb.size
  {
    if outstanding == 0 then 0 else Room(sb, blocks)
  }

  /** The block of the file that entry k lies in. */
  function EntryBlock(k: nat): (r: nat) {
    DESIZE * k / BSIZE
  }

  /** One past the block of the last of m entries. */
  function EntryBlocks(m: nat): (r: nat) {
    if m == 0 then 0 else EntryBlock(m - 1) + 1
  }

  /** Reading m entries one by one comes to more empty slots than there are blocks
      for. */
  ghost predicate Starved(sb: Superblock, blocks: seq<Block>, n: Inode, outstanding: nat, m: nat) {
    && sb.Valid() && |blocks| == sb.size && InodeOk(blocks, n)
    && Needed(blocks, n, 0, EntryBlocks(m)) > Avail(sb, blocks, outstanding)
  }

  /** An entry that a scan stops at: one for the name, or an empty one. */
  predicate Hit(e: D.Dirent, name: Option<D.CString>) {
    if name.None? then e.inum == 0 else e.inum != 0 && D.Name(e) == name.value
  }

  /** How many entries a scan from one of them on has looked at in the end. */
  ghost function Looks(es: seq<D.Dirent>, name: Option<D.CString>, from: nat): (m: nat)
    requires from <= |es|
    ensures from <= m <= |es| && (from < |es| ==> from < m)
    ensures forall j :: from <= j < m - 1 ==> !Hit(es[j], name)
    ensures m < |es| ==> Hit(es[m - 1], name)
    decreases |es| - from
  {
    if from == |es| then from
    else if Hit(es[from], name) then from + 1
    else Looks(es, name, from + 1)
  }

  /** After m entries exactly the slots on the way to them are filled. */
  ghost predicate Scanned(owner: Owner, owner': Owner, i: nat, outstanding: nat, m: nat) {
    Filled(owner, owner', i, Sought(0, EntryBlocks(m))) && (outstanding == 0 ==> owner' == owner)
  }

  lemma ScanStarts(owner: Owner, i: nat, outstanding: nat)
    ensures Scanned(owner, owner, i, outstanding, 0)
  {
    SoughtNone(0);
    FilledNone(owner, i, {});
  }

  /** Entry m lies in the block that was read last, or in the next. */
  lemma NextBlock(m: nat)
    requires DESIZE * m < MAXBYTES
    ensures var bn := EntryBlock(m);
            && EntryBlocks(m + 1) == bn + 1 && (EntryBlocks(m) == bn || EntryBlocks(m) == bn + 1) && bn < MAXFILE
  {
  }

  lemma SoughtJoin(e: nat, bn: nat)
    requires bn < MAXFILE && (e == bn || e == bn + 1)
    ensures Sought(0, bn + 1) == Sought(0, e) + Sought(bn, bn + 1)
  {
    SoughtMore(0, bn);
  }

  /** What is needed before is needed now or was taken since. */
  lemma Balance(a: Owner, b: Owner, i: nat, e: nat, bn: nat)
    requires bn < MAXFILE && (e == bn || e == bn + 1) && Filled(a, b, i, Sought(0, e))
    ensures |Sought(0, bn + 1) - HeldSlots(a, i)| + |a| == |Sought(bn, bn + 1) - HeldSlots(b, i)| + |b|
  {
    hide Sought;
    hide HeldSlots;
    SoughtJoin(e, bn);
    Split(HeldSlots(a, i), Sought(0, e), Sought(bn, bn + 1));
  }

  /** The same by the owner map. */
  ghost predicate Lacks(sb: Superblock, owner: Owner, i: nat, outstanding: nat, lo: nat, hi: nat) {
    |Sought(lo, hi) - HeldSlots(owner, i)| > if outstanding == 0 then 0 else sb.size - sb.data - |owner|
  }

  lemma LacksIs(sb: Superblock, blocks: seq<Block>, ino: seq<Inode>, owner: Owner, i: nat, outstanding: nat, lo: nat,
                hi: nat)
    requires Own(sb, blocks, ino, owner, {}) && i < |ino|
    ensures sb.Valid() && |blocks| == sb.size && InodeOk(blocks, ino[i])
    ensures Needed(blocks, ino[i], lo, hi) > Avail(sb, blocks, outstanding) <==>
              Lacks(sb, owner, i, outstanding, lo, hi)
  {
    hide Own;
    hide Sought;
    hide HeldSlots;
    hide Needed;
    hide Room;
    OwnerFits(sb, blocks, ino, owner);
    NeededIs(sb, blocks, ino, owner, i, lo, hi);
  }

  lemma LacksNext(sb: Superblock, a: Owner, b: Owner, i: nat, outstanding: nat, e: nat, bn: nat)
    requires bn < MAXFILE && (e == bn || e == bn + 1) && Filled(a, b, i, Sought(0, e)) && (outstanding == 0 ==> b == a)
    ensures Lacks(sb, b, i, outstanding, bn, bn + 1) <==> Lacks(sb, a, i, outstanding, 0, bn + 1)
  {
    hide Sought;
    hide HeldSlots;
    hide Filled;
    Balance(a, b, i, e, bn);
  }

  /** One entry more can be read exactly when all up to it could. */
  lemma ScanNext(sb: Superblock, b0: seq<Block>, i0: seq<Inode>, o0: Owner, b1: seq<Block>, i1: seq<Inode>, o1: Owner,
                 i: nat, outstanding: nat, m: nat)
    requires Own(sb, b0, i0, o0, {}) && Own(sb, b1, i1, o1, {}) && i < |i0| == |i1| && DESIZE * m < MAXBYTES
    requires Scanned(o0, o1, i, outstanding, m)
    ensures sb.Valid() && |b0| == |b1| == sb.size && InodeOk(b0, i0[i]) && InodeOk(b1, i1[i])
    ensures var bn := EntryBlock(m);
            Needed(b1, i1[i], bn, bn + 1) > Avail(sb, b1, outstanding) <==> Starved(sb, b0, i0[i], outstanding, m + 1)
  {
    hide Own;
    hide Lacks;
    hide Needed;
    hide Avail;
    hide Filled;
    hide EntryBlock;
    hide EntryBlocks;
    NextBlock(m);
    LacksNext(sb, o0, o1, i, outstanding, EntryBlocks(m), EntryBlock(m));
    LacksIs(sb, b0, i0, o0, i, outstanding, 0, EntryBlocks(m + 1));
    LacksIs(sb, b1, i1, o1, i, outstanding, EntryBlock(m), EntryBlock(m) + 1);
  }

  lemma ScanMore(a: Owner, b: Owner, c: Owner, i: nat, outstanding: nat, m: nat)
    requires Scanned(a, b, i, outstanding, m) && DESIZE * m < MAXBYTES && (outstanding == 0 ==> c == b)
    requires Filled(b, c, i, Sought(EntryBlock(m), EntryBlock(m) + 1))
    ensures Scanned(a, c, i, outstanding, m + 1)
  {
    hide Sought;
    hide Filled;
    hide EntryBlock;
    hide EntryBlocks;
    var bn := EntryBlock(m);
    NextBlock(m);
    SoughtJoin(EntryBlocks(m), bn);
    FilledTrans(a, b, c, i, Sought(0, EntryBlocks(m)), Sought(bn, bn + 1));
  }

  /** What starves a scan of some entries starves one of more. */
  lemma StarvedMore(sb: Superblock, blocks: seq<Block>, n: Inode, outstanding: nat, m: nat, k: nat)
    requires Starved(sb, blocks, n, outstanding, m) && m <= k && DESIZE * k <= MAXBYTES
    ensures Starved(sb, blocks, n, outstanding, k)
  {
    hide Needed;
    hide Room;
    assert EntryBlocks(m) <= EntryBlocks(k) <= MAXFILE;
    NeededGrows(blocks, n, 0, EntryBlocks(m), EntryBlocks(k));
  }

  /** A scan that got through was not starved. */
  lemma ScanDone(sb: Superblock, b0: seq<Block>, i0: seq<Inode>, o0: Owner, b1: seq<Block>, i1: seq<Inode>, o1: Owner,
                 i: nat, outstanding: nat, m: nat)
    requires Own(sb, b0, i0, o0, {}) && Own(sb, b1, i1, o1, {}) && i < |i0| && Scanned(o0, o1, i, outstanding, m)
    ensures !Starved(sb, b0, i0[i], outstanding, m)
  {
    hide Own;
    hide Sought;
    hide HeldSlots;
    hide Needed;
    hide Room;
    OwnerFits(sb, b1, i1, o1);
    NeededIs(sb, b0, i0, o0, i, 0, EntryBlocks(m));
  }

  /** One block holds the whole entry. */
  lemma EntryLook(k: nat)
    ensures LookEnd(DESIZE * k, DESIZE, DESIZE) == EntryBlock(k) + 1 && DESIZE * k / BSIZE == EntryBlock(k)
  {
  }

  /** readi of one entry. None is a panic: the caller's, when the entry lies in a hole
      and there is no block for it, or log_write's, when there is one and no
      operation is under way. */
  method ReadEntry(fs: Fs, i: nat, k: nat, ghost es: seq<D.Dirent>) returns (e: Option<D.Dirent>)
    requires fs.Valid({}) && i < |fs.ino| && Holds(fs.blocks, fs.ino[i], es) && k < |es|
    modifies fs`blocks, fs`ino, fs`owner, fs`logged
    ensures fs.Valid({}) && Steady(old(fs.blocks), old(fs.ino), fs.blocks, fs.ino, i) && Holds(fs.blocks, fs.ino[i], es)
    ensures e.Some? ==> e.value == es[k]
    ensures fs.sb.Valid() && |old(fs.blocks)| == fs.sb.size
    ensures var bn := EntryBlock(k);
            && (e.None? <==> Needed(old(fs.blocks), old(fs.ino)[i], bn, bn + 1)
                             > Avail(fs.sb, old(fs.blocks), fs.outstanding))
            && (e.Some? ==> Filled(old(fs.owner), fs.owner, i, Sought(bn, bn + 1)))
    ensures fs.outstanding == 0 ==> fs.owner == old(fs.owner)
    ensures e.None? ==> !NoHoles(old(fs.blocks), old(fs.ino)[i]) && (fs.outstanding > 0 ==> AllUsed(fs.sb, fs.blocks))
    ensures Covered(old(fs.blocks), old(fs.logged), fs.blocks, fs.logged, {})
  {
    hide Covered;
    hide Own;
    hide ByteAt;
    hide Encode;
    hide SameBytes;
    hide AllUsed;
    hide NoHoles;
    hide Needed;
    hide Room;
    hide StopsAt;
    hide LookEnd;
    hide InodeHole;
    hide Filled;
    hide Sought;
    assert EntryIs(fs.blocks, fs.ino[i], k, es[k]);
    OwnerFits(fs.sb, fs.blocks, fs.ino, fs.owner);
    NoHolesFit(fs.blocks, fs.ino[i], DESIZE * k);
    EntryLook(k);
    var panic, r, out := Readi(fs, i, DESIZE * k, DESIZE, DESIZE);
    SteadyHolds(old(fs.blocks), old(fs.ino), fs.blocks, fs.ino, i, es);
    if panic || r != DESIZE {
      return None;
    }
    assert out == Encode(es[k]);
    DecodeEncode(es[k]);
    e := Some(Decode(out));
  }

  /** Where a scan of the directory es stands that has read m entries. */
  ghost predicate ScanAt(fs: Fs, b0: seq<Block>, i0: seq<Inode>, o0: Owner, i: nat, es: seq<D.Dirent>, m: nat)
    reads fs
  {
    && m <= |es| && fs.Valid({}) && Steady(b0, i0, fs.blocks, fs.ino, i) && i < |fs.ino| == |i0|
    && Holds(fs.blocks, fs.ino[i], es) && Holds(b0, i0[i], es)
    && Own(fs.sb, b0, i0, o0, {}) && Scanned(o0, fs.owner, i, fs.outstanding, m)
  }

  /** One turn of a scan. */
  method ScanTurn(fs: Fs, i: nat, k: nat, ghost es: seq<D.Dirent>, ghost b0: seq<Block>, ghost i0: seq<Inode>,
                  ghost o0: Owner)
      returns (e: Option<D.Dirent>)
    requires ScanAt(fs, b0, i0, o0, i, es, k) && k < |es|
    modifies fs`blocks, fs`ino, fs`owner, fs`logged
    ensures fs.Valid({}) && Steady(b0, i0, fs.blocks, fs.ino, i) && i < |fs.ino| && Holds(fs.blocks, fs.ino[i], es)
    ensures e.Some? ==> e.value == es[k] && ScanAt(fs, b0, i0, o0, i, es, k + 1)
    ensures e.None? ==> Starved(fs.sb, b0, i0[i], fs.outstanding, k + 1) && !NoHoles(b0, i0[i])
    ensures e.None? && fs.outstanding > 0 ==> |fs.blocks| == fs.sb.size && AllUsed(fs.sb, fs.blocks)
    ensures fs.outstanding == 0 ==> fs.owner == old(fs.owner)
    ensures Covered(old(fs.blocks), old(fs.logged), fs.blocks, fs.logged, {})
  {
    hide Covered;
    hide Own;
    hide Steady;
    hide Holds;
    hide NoHoles;
    hide AllUsed;
    hide Scanned;
    hide Needed;
    hide Avail;
    hide Filled;
    hide Sought;
    hide Starved;
    ghost var b1, i1, o1 := fs.blocks, fs.ino, fs.owner;
    Sized(fs.blocks, fs.ino[i], es);
    ScanNext(fs.sb, b0, i0, o0, b1, i1, o1, i, fs.outstanding, k);
    e := ReadEntry(fs, i, k, es);
    SteadyTrans(b0, i0, b1, i1, fs.blocks, fs.ino, i);
    SteadySize(b0, i0, fs.blocks, fs.ino, i);
    OwnerFits(fs.sb, fs.blocks, fs.ino, fs.owner);
    if e.None? {
      Whole(b0, i0, b1, i1, i);
    } else {
      ScanMore(o0, o1, fs.owner, i, fs.outstanding, k);
    }
  }

  lemma ScanBegins(fs: Fs, i: nat, es: seq<D.Dirent>)
    requires fs.Valid({}) && i < |fs.ino| && Holds(fs.blocks, fs.ino[i], es)
    ensures ScanAt(fs, fs.blocks, fs.ino, fs.owner, i, es, 0) && DESIZE * |es| <= MAXBYTES
  {
    hide Own;
    hide Steady;
    SteadyRefl(fs.sb, fs.blocks, fs.ino, fs.owner, i);
    ScanStarts(fs.owner, i, fs.outstanding);
  }

  lemma ScanEnds(fs: Fs, b0: seq<Block>, i0: seq<Inode>, o0: Owner, i: nat, es: seq<D.Dirent>, m: nat)
    requires ScanAt(fs, b0, i0, o0, i, es, m)
    ensures fs.Valid({}) && Steady(b0, i0, fs.blocks, fs.ino, i) && i < |fs.ino| && Holds(fs.blocks, fs.ino[i], es)
    ensures i < |i0| && !Starved(fs.sb, b0, i0[i], fs.outstanding, m) && fs.ino[i].size == DESIZE * |es|
    ensures Scanned(o0, fs.owner, i, fs.outstanding, m)
  {
    hide Own;
    hide Steady;
    hide Scanned;
    ScanDone(fs.sb, b0, i0, o0, fs.blocks, fs.ino, fs.owner, i, fs.outstanding, m);
  }

  /** dirlookup. It panics exactly when the entries up to the one for the name, or to
      the end, come to more empty slots than there are blocks for. */
  method Dirlookup(fs: Fs, i: nat, name: D.CString, ghost es: seq<D.Dirent>) returns (panic: bool, k: Option<nat>)
    requires fs.Valid({}) && i < |fs.ino| && Holds(fs.blocks, fs.ino[i], es)
    modifies fs`blocks, fs`ino, fs`owner, fs`logged
    ensures fs.Valid({}) && Steady(old(fs.blocks), old(fs.ino), fs.blocks, fs.ino, i) && Holds(fs.blocks, fs.ino[i], es)
    ensures panic <==> Starved(fs.sb, old(fs.blocks), old(fs.ino)[i], fs.outstanding, Looks(es, Some(D.Cut(name)), 0))
    ensures panic ==> !NoHoles(old(fs.blocks), old(fs.ino)[i])
    ensures panic && fs.outstanding > 0 ==> |fs.blocks| == fs.sb.size && AllUsed(fs.sb, fs.blocks)
    ensures !panic ==> Scanned(old(fs.owner), fs.owner, i, fs.outstanding, Looks(es, Some(D.Cut(name)), 0))
    ensures !panic && k.Some? ==> D.Says(es, k.value, D.Cut(name))
    ensures !panic && k.None? ==> forall j: nat :: !D.Says(es, j, D.Cut(name))
    ensures Covered(old(fs.blocks), old(fs.logged), fs.blocks, fs.logged, {})
  {
    hide Covered;
    hide Own;
    hide Steady;
    hide Holds;
    hide NoHoles;
    hide AllUsed;
    hide ScanAt;
    hide Scanned;
    hide Starved;
    hide D.Unpack;
    hide D.Cut;
    ghost var b0, i0, o0 := fs.blocks, fs.ino, fs.owner;
    ghost var sought := Some(D.Cut(name));
    CoveredNone(fs.blocks, fs.logged);
    ScanBegins(fs, i, es);
    ScanEnds(fs, b0, i0, o0, i, es, 0);
    var off := 0;
    while off * DESIZE < fs.ino[i].size
      invariant off <= |es| && ScanAt(fs, b0, i0, o0, i, es, off) && i < |fs.ino| && fs.ino[i].size == DESIZE * |es|
      invariant Looks(es, sought, 0) == Looks(es, sought, off)
      invariant forall j: nat :: j < off ==> !D.Says(es, j, D.Cut(name))
      invariant Covered(b0, old(fs.logged), fs.blocks, fs.logged, {})
      decreases |es| - off
    {
      ghost var b1, l1 := fs.blocks, fs.logged;
      var e := ScanTurn(fs, i, off, es, b0, i0, o0);
      CoveredTrans(b0, old(fs.logged), b1, l1, fs.blocks, fs.logged, {});
      if e.None? {
        StarvedMore(fs.sb, b0, i0[i], fs.outstanding, off + 1, Looks(es, sought, off));
        return true, None;
      }
      ScanEnds(fs, b0, i0, o0, i, es, off + 1);
      if e.value.inum != 0 {
        var same := D.Namecmp(name, e.value.name);
        if same {
          return false, Some(off);
        }
      }
      off := off + 1;
    }
    ScanEnds(fs, b0, i0, o0, i, es, off);
    return false, None;
  }

  lemma Sized(blocks: seq<Block>, n: Inode, es: seq<D.Dirent>)
    requires Holds(blocks, n, es)
    ensures n.size == DESIZE * |es| && n.size <= MAXBYTES
  {
  }

  lemma Whole(a: seq<Block>, p: seq<Inode>, b: seq<Block>, q: seq<Inode>, i: nat)
    requires Steady(a, p, b, q, i)
    ensures i < |p| && i < |q| && (NoHoles(a, p[i]) ==> NoHoles(b, q[i]))
  {
  }

  /** dirlink's search for an empty entry; it panics likewise. */
  method FindSlot(fs: Fs, i: nat, ghost es: seq<D.Dirent>) returns (panic: bool, k: nat)
    requires fs.Valid({}) && i < |fs.ino| && Holds(fs.blocks, fs.ino[i], es)
    modifies fs`blocks, fs`ino, fs`owner, fs`logged
    ensures fs.Valid({}) && Steady(old(fs.blocks), old(fs.ino), fs.blocks, fs.ino, i) && Holds(fs.blocks, fs.ino[i], es)
    ensures panic <==> Starved(fs.sb, old(fs.blocks), old(fs.ino)[i], fs.outstanding, Looks(es, None, 0))
    ensures panic ==> !NoHoles(old(fs.blocks), old(fs.ino)[i])
    ensures panic && fs.outstanding > 0 ==> |fs.blocks| == fs.sb.size && AllUsed(fs.sb, fs.blocks)
    ensures !panic ==> Scanned(old(fs.owner), fs.owner, i, fs.outstanding, Looks(es, None, 0))
    ensures !panic ==> k <= |es| && (k < |es| ==> es[k].inum == 0) && forall j :: 0 <= j < k ==> es[j].inum != 0
    ensures Covered(old(fs.blocks), old(fs.logged), fs.blocks, fs.logged, {})
  {
    hide Covered;
    hide Own;
    hide Steady;
    hide Holds;
    hide NoHoles;
    hide AllUsed;
    hide ScanAt;
    hide Scanned;
    hide Starved;
    ghost var b0, i0, o0 := fs.blocks, fs.ino, fs.owner;
    CoveredNone(fs.blocks, fs.logged);
    ScanBegins(fs, i, es);
    ScanEnds(fs, b0, i0, o0, i, es, 0);
    k := 0;
    while k * DESIZE < fs.ino[i].size
      invariant k <= |es| && ScanAt(fs, b0, i0, o0, i, es, k) && i < |fs.ino| && fs.ino[i].size == DESIZE * |es|
      invariant Looks(es, None, 0) == Looks(es, None, k)
      invariant forall j :: 0 <= j < k ==> es[j].inum != 0
      invariant Covered(b0, old(fs.logged), fs.blocks, fs.logged, {})
      decreases |es| - k
    {
      ghost var b1, l1 := fs.blocks, fs.logged;
      var e := ScanTurn(fs, i, k, es, b0, i0, o0);
      CoveredTrans(b0, old(fs.logged), b1, l1, fs.blocks, fs.logged, {});
      if e.None? {
        StarvedMore(fs.sb, b0, i0[i], fs.outstanding, k + 1, Looks(es, None, k));
        return true, k;
      }
      ScanEnds(fs, b0, i0, o0, i, es, k + 1);
      if e.value.inum == 0 {
        return false, k;
      }
      k := k + 1;
    }
    ScanEnds(fs, b0, i0, o0, i, es, k);
    panic := false;
  }

  /** An entry spliced in at its place. */
  lemma SplicedHolds(blocks: seq<Block>, n: Inode, blocks': seq<Block>, n': Inode, es: seq<D.Dirent>, k: nat,
                     e: D.Dirent)
    requires Holds(blocks, n, es) && k <= |es| && Storable(e) && InodeOk(blocks', n') && DESIZE * k + DESIZE <= MAXBYTES
    requires n'.size == Max(n.size, DESIZE * k + DESIZE) && Spliced(blocks, n, blocks', n', DESIZE * k, Encode(e))
    ensures Holds(blocks', n', D.Put(es, k, e))
  {
    hide ByteAt;
    hide Encode;
    var r := D.Put(es, k, e);
    forall j: nat | j < |r|
      ensures EntryIs(blocks', n', j, r[j])
    {
      assert j != k ==> EntryIs(blocks, n, j, es[j]);
    }
  }

  /** Nothing spliced in. */
  lemma UnsplicedHolds(blocks: seq<Block>, n: Inode, blocks': seq<Block>, n': Inode, es: seq<D.Dirent>, off: nat)
    requires Holds(blocks, n, es) && InodeOk(blocks', n') && n'.size == n.size
             && Spliced(blocks, n, blocks', n', off, [])
    ensures Holds(blocks', n', es)
  {
    hide ByteAt;
    hide Encode;
    forall j: nat | j < |es|
      ensures EntryIs(blocks', n', j, es[j])
    {
      assert EntryIs(blocks, n, j, es[j]);
    }
  }

  /** writei of one entry: all of it, or nothing when the disk is full or the
      directory as large as a file can be. */
  method WriteEntry(fs: Fs, i: nat, k: nat, e: D.Dirent, ghost es: seq<D.Dirent>) returns (ok: bool)
    requires fs.Valid({}) && i < |fs.ino| && Holds(fs.blocks, fs.ino[i], es) && k <= |es| && Storable(e)
             && fs.outstanding > 0
    modifies fs`blocks, fs`ino, fs`dino, fs`owner, fs`logged
    ensures fs.Valid({}) && SameOthers(old(fs.blocks), old(fs.ino), fs.blocks, fs.ino, i) && i < |fs.ino|
    ensures Holds(fs.blocks, fs.ino[i], if ok then D.Put(es, k, e) else es)
    ensures !ok ==> (k == |es| && DESIZE * k + DESIZE > MAXBYTES) || AllUsed(fs.sb, fs.blocks)
    ensures fs.sb.Valid() && |old(fs.blocks)| == fs.sb.size && InodeOk(old(fs.blocks), old(fs.ino)[i])
    ensures ok <==> DESIZE * k + DESIZE <= MAXBYTES
                    && !Short(fs.sb, old(fs.blocks), old(fs.ino)[i], DESIZE * k, DESIZE, DESIZE)
    ensures Covered(old(fs.blocks), old(fs.logged), fs.blocks, fs.logged, {})
    ensures InodesCovered(fs.sb, old(fs.dino), fs.dino, fs.logged)
    ensures ok ==> fs.dino == old(fs.dino)[i := fs.ino[i]] && |fs.dino| == |old(fs.dino)|
  {
    hide Leaked;
    hide Covered;
    hide InodesCovered;
    hide Own;
    hide ByteAt;
    hide Encode;
    hide SameOthers;
    hide Spliced;
    hide AllUsed;
    hide NoHoles;
    hide Logs;
    hide Spanned;
    hide EntryIs;
    hide Needed;
    hide Short;
    hide LookedTo;
    ghost var b0, i0 := fs.blocks, fs.ino;
    OwnerFits(fs.sb, fs.blocks, fs.ino, fs.owner);
    SteadyRefl(fs.sb, fs.blocks, fs.ino, fs.owner, i);
    SteadyOthers(b0, i0, b0, i0, i);
    var panic, r, leak, full;
    ghost var datas;
    var s := Encode(e);
    panic, r, leak, full, datas := Writei(fs, i, DESIZE * k, s, DESIZE);
    ok := r == DESIZE;
    if r == -1 {
      CoveredNone(fs.blocks, fs.logged);
      NoInode(fs.sb, fs.dino, fs.logged);
    } else {
      NoneLeaked(fs.blocks, fs.ino[i], DESIZE * k + r);
    }
    if ok {
      assert s[..r + leak] == s;
      SplicedHolds(b0, i0[i], fs.blocks, fs.ino[i], es, k, e);
    } else if r != -1 {
      assert r == 0 && leak == 0 by {
        assert full;
        StopsWhole(fs.sb, b0, i0[i], k, r);
      }
      assert s[..r + leak] == [];
      UnsplicedHolds(b0, i0[i], fs.blocks, fs.ino[i], es, DESIZE * k);
    }
  }

  /** No block ends inside an entry. */
  lemma NoPart(k: nat, r: nat)
    requires r < DESIZE && (r == 0 || Boundary(DESIZE * k + r))
    ensures r == 0
  {
  }

  lemma StopsWhole(sb: Superblock, blocks: seq<Block>, n: Inode, k: nat, r: nat)
    requires sb.Valid() && |blocks| == sb.size && InodeOk(blocks, n) && StopsAt(sb, blocks, n, DESIZE * k, r)
             && r < DESIZE
    ensures r == 0
  {
    hide Needed;
    hide Room;
    NoPart(k, r);
  }

  /** An entry in use lies in a block that is there. */
  lemma InUseMapped(blocks: seq<Block>, n: Inode, es: seq<D.Dirent>, k: nat)
    requires Holds(blocks, n, es) && k < |es| && es[k].inum != 0
    ensures Mapped(blocks, n, DESIZE * k / BSIZE, DESIZE * k + DESIZE)
  {
    hide Ptr;
    assert EntryIs(blocks, n, k, es[k]);
    var off := DESIZE * k;
    var bn := off / BSIZE;
    assert ByteAt(blocks, n, off) == Encode(es[k])[0] && ByteAt(blocks, n, off + 1) == Encode(es[k])[1];
    assert (off + 1) / BSIZE == bn;
    assert Ptr(blocks, n, SlotOf(bn)) != 0;
    forall b | bn <= b < MAXFILE && b * BSIZE < off + DESIZE
      ensures b == bn
    {
    }
  }

  /** sys_unlink's writei of an empty entry over one in use: it cannot fail, so the
      panic "unlink: writei" is out of reach. The directory loses that name. */
  method ClearEntry(fs: Fs, i: nat, k: nat, ghost es: seq<D.Dirent>) returns (panic: bool)
    requires fs.Valid({}) && i < |fs.ino| && Holds(fs.blocks, fs.ino[i], es) && k < |es| && es[k].inum != 0
             && fs.outstanding > 0
    modifies fs`blocks, fs`ino, fs`dino, fs`owner, fs`logged
    ensures !panic && fs.Valid({}) && SameOthers(old(fs.blocks), old(fs.ino), fs.blocks, fs.ino, i) && i < |fs.ino|
    ensures Holds(fs.blocks, fs.ino[i], es[k := D.Blank()])
    ensures forall m :: D.Denotes(es, m) ==> D.Denotes(es[k := D.Blank()], m - {D.Name(es[k])})
    ensures Covered(old(fs.blocks), old(fs.logged), fs.blocks, fs.logged, {})
    ensures InodesCovered(fs.sb, old(fs.dino), fs.dino, fs.logged)
  {
    hide Covered;
    hide InodesCovered;
    hide Own;
    hide SameOthers;
    hide D.Denotes;
    hide EntryIs;
    hide Needed;
    hide Room;
    hide LookEnd;
    OwnerFits(fs.sb, fs.blocks, fs.ino, fs.owner);
    InUseMapped(fs.blocks, fs.ino[i], es, k);
    MappedNeedNone(fs.blocks, fs.ino[i], DESIZE * k, DESIZE, DESIZE);
    var ok := WriteEntry(fs, i, k, D.Blank(), es);
    panic := !ok;
    forall m | D.Denotes(es, m)
      ensures D.Denotes(es[k := D.Blank()], m - {D.Name(es[k])})
    {
      D.EraseDenotes(es, k, m);
    }
  }

  /** A second scan of entries that were all read finds every slot filled. */
  lemma ScanAgain(sb: Superblock, b1: seq<Block>, i1: seq<Inode>, o0: Owner, o1: Owner, o2: Owner, i: nat,
                  outstanding: nat, n: nat, m: nat)
    requires Own(sb, b1, i1, o1, {}) && i < |i1| && m <= n && DESIZE * n <= MAXBYTES
             && Scanned(o0, o1, i, outstanding, n)
    ensures !Starved(sb, b1, i1[i], outstanding, m)
    ensures Scanned(o1, o2, i, outstanding, m) ==> Scanned(o0, o2, i, outstanding, n)
  {
    hide Own;
    hide Sought;
    hide HeldSlots;
    hide Needed;
    hide Room;
    var all, some := Sought(0, EntryBlocks(n)), Sought(0, EntryBlocks(m));
    assert EntryBlocks(m) <= EntryBlocks(n) <= MAXFILE;
    SoughtGrows(0, EntryBlocks(m), EntryBlocks(n));
    NeededIs(sb, b1, i1, o1, i, 0, EntryBlocks(m));
    assert some - HeldSlots(o1, i) == {};
    if Scanned(o1, o2, i, outstanding, m) {
      FilledTrans(o0, o1, o2, i, all, some);
      assert all + some == all;
    }
  }

  lemma BlockOf(k: nat, n: nat)
    requires k < n && DESIZE * n <= MAXBYTES
    ensures EntryBlock(k) + 1 <= EntryBlocks(n) <= MAXFILE
  {
  }

  /** Nothing is lacking for a block that was read. */
  lemma HasRead(sb: Superblock, a: Owner, b: Owner, i: nat, outstanding: nat, bn: nat, hi: nat)
    requires Filled(a, b, i, Sought(0, hi)) && bn < hi <= MAXFILE && |b| <= sb.size - sb.data
    ensures !Lacks(sb, b, i, outstanding, bn, bn + 1)
  {
    hide Sought;
    hide HeldSlots;
    SoughtJoin(bn, bn);
    SoughtGrows(0, bn + 1, hi);
    assert Sought(bn, bn + 1) - HeldSlots(b, i) == {};
  }

  /** When all entries were read, entry k can be written exactly if it was one of
      them or there is a block for one more. */
  lemma CanWrite(sb: Superblock, b0: seq<Block>, i0: seq<Inode>, o0: Owner, b1: seq<Block>, i1: seq<Inode>, o1: Owner,
                 i: nat, outstanding: nat, n: nat, k: nat)
    requires Own(sb, b0, i0, o0, {}) && Own(sb, b1, i1, o1, {}) && i < |i0| == |i1| && outstanding > 0
    requires k <= n && DESIZE * n <= MAXBYTES && Scanned(o0, o1, i, outstanding, n)
    ensures sb.Valid() && |b1| == sb.size && InodeOk(b1, i1[i])
    ensures DESIZE * k + DESIZE <= MAXBYTES ==>
              (Short(sb, b1, i1[i], DESIZE * k, DESIZE, DESIZE) <==>
                  k == n && Starved(sb, b0, i0[i], outstanding, n + 1))
  {
    hide Own;
    hide Needed;
    hide Room;
    hide Lacks;
    hide EntryBlock;
    hide Filled;
    hide EntryBlocks;
    hide LookEnd;
    OwnerFits(sb, b1, i1, o1);
    EntryLook(k);
    if k < n {
      BlockOf(k, n);
      HasRead(sb, o0, o1, i, outstanding, EntryBlock(k), EntryBlocks(n));
      LacksIs(sb, b1, i1, o1, i, outstanding, EntryBlock(k), EntryBlock(k) + 1);
    } else if DESIZE * k < MAXBYTES {
      ScanNext(sb, b0, i0, o0, b1, i1, o1, i, outstanding, n);
    } else {
      NeededIs(sb, b1, i1, o1, i, 0, 0);
    }
  }

  /** A scan for a name that is not there looks at every entry. */
  lemma LooksAll(es: seq<D.Dirent>, name: D.CString)
    requires forall j: nat :: !D.Says(es, j, name)
    ensures Looks(es, Some(name), 0) == |es|
  {
    var m := Looks(es, Some(name), 0);
    if m < |es| {
      assert D.Says(es, m - 1, name);
    }
  }

  /** dirlink. It panics exactly when dirlookup does; else it fails exactly if the name
      is there, or no entry is empty and the directory cannot grow, because it is
      as large as a file can be or there is no block. */
  method Dirlink(fs: Fs, i: nat, name: D.CString, inum: nat, ghost es: seq<D.Dirent>)
      returns (panic: bool, ok: bool, ghost k: nat)
    requires fs.Valid({}) && i < |fs.ino| && Holds(fs.blocks, fs.ino[i], es) && 0 < inum < 65536 && fs.outstanding > 0
    modifies fs`blocks, fs`ino, fs`dino, fs`owner, fs`logged
    ensures fs.Valid({}) && SameOthers(old(fs.blocks), old(fs.ino), fs.blocks, fs.ino, i) && i < |fs.ino|
    ensures panic <==> Starved(fs.sb, old(fs.blocks), old(fs.ino)[i], fs.outstanding, Looks(es, Some(D.Cut(name)), 0))
    ensures panic ==> !ok && !NoHoles(old(fs.blocks), old(fs.ino)[i]) && |fs.blocks| == fs.sb.size
                      && AllUsed(fs.sb, fs.blocks)
    ensures !ok ==> Holds(fs.blocks, fs.ino[i], es)
    ensures !panic ==>
              (ok <==> (forall j: nat :: !D.Says(es, j, D.Cut(name)))
                       && (!D.Full(es) || CanGrow(fs.sb, old(fs.blocks), old(fs.ino)[i], fs.outstanding, |es|)))
    ensures ok ==>
              && (forall j: nat :: !D.Says(es, j, D.Cut(name))) && k <= |es| && (k < |es| ==> es[k].inum == 0)
              && Holds(fs.blocks, fs.ino[i], D.Put(es, k, D.Dirent(inum, D.Pack(name))))
              && forall m :: D.Denotes(es, m) ==>
                   D.Denotes(D.Put(es, k, D.Dirent(inum, D.Pack(name))), m[D.Cut(name) := inum])
    ensures Covered(old(fs.blocks), old(fs.logged), fs.blocks, fs.logged, {})
    ensures InodesCovered(fs.sb, old(fs.dino), fs.dino, fs.logged)
    ensures ok && old(fs.OnDisk()) ==> fs.OnDisk()
  {
    hide Covered;
    hide InodesCovered;
    hide Own;
    hide Steady;
    hide Holds;
    hide NoHoles;
    hide AllUsed;
    hide SameOthers;
    hide Starved;
    hide Scanned;
    hide Short;
    hide D.Unpack;
    hide D.Cut;
    hide D.Pack;
    hide D.Denotes;
    hide D.Put;
    k, ok := 0, false;
    ghost var b0, i0, o0 := fs.blocks, fs.ino, fs.owner;
    Sized(b0, i0[i], es);
    var found;
    panic, found := Dirlookup(fs, i, name, es);
    SteadyOthers(b0, i0, fs.blocks, fs.ino, i);
    SteadySize(b0, i0, fs.blocks, fs.ino, i);
    NoInode(fs.sb, fs.dino, fs.logged);
    if panic || found.Some? {
      return;
    }
    LooksAll(es, D.Cut(name));
    ghost var b1, i1, o1, l1 := fs.blocks, fs.ino, fs.owner, fs.logged;
    ScanAgain(fs.sb, b1, i1, o0, o1, o1, i, fs.outstanding, |es|, Looks(es, None, 0));
    var slot;
    panic, slot := FindSlot(fs, i, es);
    SteadyTrans(b0, i0, b1, i1, fs.blocks, fs.ino, i);
    SteadyOthers(b0, i0, fs.blocks, fs.ino, i);
    SteadySize(b1, i1, fs.blocks, fs.ino, i);
    CoveredTrans(b0, old(fs.logged), b1, l1, fs.blocks, fs.logged, {});
    ghost var b2, i2, l2 := fs.blocks, fs.ino, fs.logged;
    ScanAgain(fs.sb, b1, i1, o0, o1, fs.owner, i, fs.outstanding, |es|, Looks(es, None, 0));
    CanWrite(fs.sb, b0, i0, o0, b2, i2, fs.owner, i, fs.outstanding, |es|, slot);
    var e := D.Dirent(inum, D.Pack(name));
    ok := WriteEntry(fs, i, slot, e, es);
    CoveredTrans(b0, old(fs.logged), b2, l2, fs.blocks, fs.logged, {});
    OthersTrans(b0, i0, b2, i2, fs.blocks, fs.ino, i);
    Synced(b0, i0, fs.blocks, fs.ino, i);
    k := slot;
    Named(es, k, name, inum);
  }

  /** A directory of n entries can have one more. */
  ghost predicate CanGrow(sb: Superblock, blocks: seq<Block>, d: Inode, outstanding: nat, n: nat) {
    DESIZE * n + DESIZE <= MAXBYTES && !Starved(sb, blocks, d, outstanding, n + 1)
  }

  lemma SteadySize(a: seq<Block>, p: seq<Inode>, b: seq<Block>, q: seq<Inode>, i: nat)
    requires Steady(a, p, b, q, i)
    ensures |q| == |p|
  {
  }

  lemma Named(es: seq<D.Dirent>, k: nat, name: D.CString, inum: nat)
    requires k <= |es| && (k < |es| ==> es[k].inum == 0) && inum > 0 && forall j: nat :: !D.Says(es, j, D.Cut(name))
    ensures forall m :: D.Denotes(es, m) ==>
              D.Denotes(D.Put(es, k, D.Dirent(inum, D.Pack(name))), m[D.Cut(name) := inum])
  {
    hide D.Denotes;
    hide D.Put;
    D.UnpackPack(name);
    D.NotFound(es, D.Cut(name));
    forall m | D.Denotes(es, m)
      ensures D.Denotes(D.Put(es, k, D.Dirent(inum, D.Pack(name))), m[D.Cut(name) := inum])
    {
      D.PutDenotes(es, k, D.Dirent(inum, D.Pack(name)), m);
    }
  }
}
