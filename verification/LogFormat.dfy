/** The on-disk redo log of kernel/log.c and what a disk image means: the
    contents every home block has once recovery has run. */
module LogFormat {
  import opened Base
  import opened Blocks

  type Disk = seq<Block>

  /** The log occupies blocks start (header) .. start + LOGBLOCKS. */
  datatype Layout = Layout(start: nat, size: nat) {
    ghost predicate Valid() {
      start + LOGBLOCKS < size <= 0x8000_0000
    }

    predicate Home(b: nat) {
      b < size && !(start <= b <= start + LOGBLOCKS)
    }

    ghost predicate Fits(d: Disk) {
      Valid() && |d| == size
    }

    /** The i-th log block, the one after the header and i others. */
    ghost function Slot(d: Disk, i: nat): Block
      requires Fits(d) && i < LOGBLOCKS
    {
      d[start + 1 + i]
    }

    /** A header the kernel writes: distinct home blocks, no more than fit. */
    ghost predicate HeaderOk(h: seq<nat>) {
      && |h| <= LOGBLOCKS
      && (forall i :: 0 <= i < |h| ==> Home(h[i]))
      && (forall i, j :: 0 <= i < j < |h| ==> h[i] != h[j])
    }

    ghost predicate DiskOk(d: Disk) {
      && Fits(d)
      && Word(d[start], 0) <= LOGBLOCKS
      && HeaderOk(HeaderOf(d[start]))
    }

    ghost predicate SameHome(d: Disk, e: Disk) {
      && Fits(d) && Fits(e)
      && forall b :: 0 <= b < size && Home(b) ==> d[b] == e[b]
    }
  }

  /** The block numbers recorded in a header block (struct logheader). */
  function HeaderOf(blk: Block): (h: seq<nat>)
    requires Word(blk, 0) <= LOGBLOCKS
    ensures |h| == Word(blk, 0)
  {
    seq(Word(blk, 0), i requires 0 <= i < Word(blk, 0) => Word(blk, i + 1))
  }

  /** The header block after the loop of write_head has stored k entries. */
  function FillEntries(blk: Block, h: seq<nat>, k: nat): (r: Block)
    requires k <= |h| <= LOGBLOCKS
    requires forall i :: 0 <= i < |h| ==> h[i] < 0x1_0000_0000
  {
    if k == 0 then SetWord(blk, 0, |h|) else SetWord(FillEntries(blk, h, k - 1), k, h[k - 1])
  }

  function FillHeader(blk: Block, h: seq<nat>): (r: Block)
    requires |h| <= LOGBLOCKS
    requires forall i :: 0 <= i < |h| ==> h[i] < 0x1_0000_0000
  {
    FillEntries(blk, h, |h|)
  }

  lemma {:induction false} FillEntriesWords(blk: Block, h: seq<nat>, k: nat)
    requires k <= |h| <= LOGBLOCKS
    requires forall i :: 0 <= i < |h| ==> h[i] < 0x1_0000_0000
    ensures Word(FillEntries(blk, h, k), 0) == |h|
    ensures forall i :: 0 <= i < k ==> Word(FillEntries(blk, h, k), i + 1) == h[i]
  {
    if k == 0 {
      WordOfSetWord(blk, 0, |h|, 0);
    } else {
      FillEntriesWords(blk, h, k - 1);
      var prev := FillEntries(blk, h, k - 1);
      forall j | 0 <= j <= k
        ensures Word(FillEntries(blk, h, k), j) == if j == k then h[k - 1] else Word(prev, j)
      {
        WordOfSetWord(prev, k, h[k - 1], j);
      }
    }
  }

  /** Whatever the header block held before, reading back what write_head
      stored gives the in-memory header. */
  lemma HeaderRoundTrip(blk: Block, h: seq<nat>)
    requires |h| <= LOGBLOCKS
    requires forall i :: 0 <= i < |h| ==> h[i] < 0x1_0000_0000
    ensures Word(FillHeader(blk, h), 0) == |h|
    ensures HeaderOf(FillHeader(blk, h)) == h
  {
    FillEntriesWords(blk, h, |h|);
  }

  /** A disk write interrupted by power loss: every 512-byte sector of the
      block is either old or new. */
  ghost predicate Torn(old_: Block, new_: Block, m: Block) {
    && (m[..SECTOR] == old_[..SECTOR] || m[..SECTOR] == new_[..SECTOR])
    && (m[SECTOR..] == old_[SECTOR..] || m[SECTOR..] == new_[SECTOR..])
  }

  lemma FirstSectorWords(a: Block, b: Block, i: nat)
    requires a[..SECTOR] == b[..SECTOR]
    requires i < SECTOR / 4
    ensures Word(a, i) == Word(b, i)
  {
    forall k | 4 * i <= k < 4 * i + 4
      ensures a[k] == b[k]
    {
      assert a[k] == a[..SECTOR][k];
      assert b[k] == b[..SECTOR][k];
    }
  }

  lemma FirstSectorHeader(a: Block, b: Block)
    requires a[..SECTOR] == b[..SECTOR]
    requires Word(b, 0) <= LOGBLOCKS
    ensures Word(a, 0) <= LOGBLOCKS
    ensures HeaderOf(a) == HeaderOf(b)
  {
    forall i | 0 <= i <= LOGBLOCKS
      ensures Word(a, i) == Word(b, i)
    {
      FirstSectorWords(a, b, i);
    }
  }

  /** The header fits in one sector, so a torn header write is atomic: the
      block decodes either to the old header or to the new one. */
  lemma TornHeader(o: Block, n: Block, m: Block)
    requires Word(o, 0) <= LOGBLOCKS && Word(n, 0) <= LOGBLOCKS
    requires Torn(o, n, m)
    ensures Word(m, 0) <= LOGBLOCKS
    ensures HeaderOf(m) == HeaderOf(o) || HeaderOf(m) == HeaderOf(n)
  {
    if m[..SECTOR] == o[..SECTOR] {
      FirstSectorHeader(m, o);
    } else {
      FirstSectorHeader(m, n);
    }
  }

  /** The disk after install_trans has copied the first k log blocks home. */
  ghost function Install(lay: Layout, d: Disk, h: seq<nat>, k: nat): (e: Disk)
    requires lay.Fits(d) && lay.HeaderOk(h) && k <= |h|
    ensures |e| == |d|
  {
    if k == 0 then d else Install(lay, d, h, k - 1)[h[k - 1] := lay.Slot(d, k - 1)]
  }

  /** What recovery makes of a disk image. */
  ghost function Recovered(lay: Layout, d: Disk): (e: Disk)
    requires lay.DiskOk(d)
    ensures |e| == |d|
  {
    var h := HeaderOf(d[lay.start]);
    Install(lay, d, h, |h|)
  }

  lemma {:induction false} InstallAt(lay: Layout, d: Disk, h: seq<nat>, k: nat, b: nat)
    requires lay.Fits(d) && lay.HeaderOk(h) && k <= |h| && b < |d|
    ensures b !in h[..k] ==> Install(lay, d, h, k)[b] == d[b]
    ensures forall i :: 0 <= i < k && h[i] == b ==> Install(lay, d, h, k)[b] == lay.Slot(d, i)
  {
    if k > 0 {
      InstallAt(lay, d, h, k - 1, b);
      assert h[..k] == h[..k - 1] + [h[k - 1]];
    }
  }

  /** Recovery gives a logged home block the contents of its log block and
      leaves every other block alone. */
  lemma RecoveredAt(lay: Layout, d: Disk, b: nat)
    requires lay.DiskOk(d) && b < |d|
    ensures var h := HeaderOf(d[lay.start]);
            && (b !in h ==> Recovered(lay, d)[b] == d[b])
            && (forall i :: 0 <= i < |h| && h[i] == b ==> Recovered(lay, d)[b] == lay.Slot(d, i))
  {
    var h := HeaderOf(d[lay.start]);
    InstallAt(lay, d, h, |h|, b);
    assert h[..|h|] == h;
  }

  /** Recovery is the same for two disks that agree on the header, on the log
      blocks in use and on every home block the header does not name. */
  lemma RecoveredAgree(lay: Layout, d: Disk, e: Disk)
    requires lay.DiskOk(d) && lay.DiskOk(e)
    requires HeaderOf(d[lay.start]) == HeaderOf(e[lay.start])
    requires var h := HeaderOf(d[lay.start]);
             && (forall i :: 0 <= i < |h| ==> lay.Slot(d, i) == lay.Slot(e, i))
             && (forall b :: 0 <= b < |d| && lay.Home(b) && b !in h ==> d[b] == e[b])
    ensures lay.SameHome(Recovered(lay, d), Recovered(lay, e))
  {
    forall b | 0 <= b < lay.size && lay.Home(b)
      ensures Recovered(lay, d)[b] == Recovered(lay, e)[b]
    {
      RecoveredAt(lay, d, b);
      RecoveredAt(lay, e, b);
      var h := HeaderOf(d[lay.start]);
      if b in h {
        var i :| 0 <= i < |h| && h[i] == b;
        assert lay.Slot(d, i) == lay.Slot(e, i);
      }
    }
  }

  /** Recovering a second time changes nothing: once every logged block is
      home, the header may be erased. */
  lemma RecoveredInstalled(lay: Layout, d: Disk)
    requires lay.DiskOk(d)
    requires var h := HeaderOf(d[lay.start]);
             forall i :: 0 <= i < |h| ==> d[h[i]] == lay.Slot(d, i)
    ensures lay.SameHome(Recovered(lay, d), d)
  {
    forall b | 0 <= b < lay.size && lay.Home(b)
      ensures Recovered(lay, d)[b] == d[b]
    {
      RecoveredAt(lay, d, b);
    }
  }

  /** The first k logged blocks are home. */
  ghost predicate Installed(lay: Layout, d: Disk, h: seq<nat>, k: nat)
    requires lay.Fits(d) && lay.HeaderOk(h)
  {
    forall j :: 0 <= j < k <= |h| ==> d[h[j]] == lay.Slot(d, j)
  }

  /** Erasing the header loses nothing once every logged block is home. */
  lemma EraseHeader(lay: Layout, d: Disk, v: Block)
    requires lay.DiskOk(d) && Word(v, 0) == 0
    requires Installed(lay, d, HeaderOf(d[lay.start]), |HeaderOf(d[lay.start])|)
    ensures lay.DiskOk(d[lay.start := v]) && HeaderOf(d[lay.start := v][lay.start]) == []
    ensures lay.SameHome(Recovered(lay, d), Recovered(lay, d[lay.start := v]))
  {
    hide Word;
    RecoveredInstalled(lay, d);
    RecoveredInstalled(lay, d[lay.start := v]);
  }

  /** log_write's scan of the header: absorb a repeated block number, else
      append it. */
  function Absorb(h: seq<nat>, b: nat): (r: seq<nat>)
    ensures b in r
    ensures b in h ==> r == h
    ensures forall x :: x in r ==> x == b || x in h
  {
    if b in h then h else h + [b]
  }
}
