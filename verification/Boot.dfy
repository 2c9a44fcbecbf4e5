/** main of mkfs/mkfs.c: the root directory, the files, and what the kernel finds.
    What the host tool leaves is what kernel/fs.c's operations start from; on such
    images, a readi and a writei that do what is not expected of them. */
module Boot {
  import opened Base
  import opened Blocks
  import opened FsLayout
  import opened Ownership
  import opened Demand
  import opened Fs
  import opened FileIo
  import opened DirFile
  import D = Directory
  import L = Links
  import Mkfs

  /** FSSIZE blocks: 2 and the log's 31, 13 of inodes, 1 of bitmap, then data. */
  const DISK := Superblock(2000, 200, 33, 46, 47)

  const T_DIR: nat := 1
  const T_FILE: nat := 2
  const ROOT: nat := 1

  datatype File = File(name: D.CString, data: seq<Byte>)

  // ---------- what an image holds ----------

  /** File j reads as c[j], and as zeros from there on. */
  ghost predicate Reads(blocks: seq<Block>, ino: seq<Inode>, c: seq<seq<Byte>>) {
    |c| == |ino| && forall j :: 0 <= j < |ino| ==> ReadsAs(blocks, ino[j], c[j])
  }

  ghost predicate ReadsAs(blocks: seq<Block>, n: Inode, s: seq<Byte>) {
    && InodeOk(blocks, n) && |s| <= MAXBYTES
    && forall o :: 0 <= o < MAXBYTES ==> ByteAt(blocks, n, o) == if o < |s| then s[o] else 0
  }

  ghost predicate Built(image: Mkfs.Image, c: seq<seq<Byte>>)
    reads image
  {
    && image.Valid() && image.Packed() && Reads(Mkfs.Full(image.sb, image.blocks), image.ino, c)
    && forall j :: 0 <= j < |c| ==> |c[j]| == image.ino[j].size
  }

  lemma BareReads(blocks: seq<Block>, n: Inode)
    requires Mkfs.Bare(n) && |blocks| > 0
    ensures ReadsAs(blocks, n, [])
  {
  }

  lemma AppendedReads(b0: seq<Block>, ino0: seq<Inode>, b1: seq<Block>, ino1: seq<Inode>, c: seq<seq<Byte>>, i: nat,
                      data: seq<Byte>)
    requires Reads(b0, ino0, c) && i < |c| && |c[i]| + |data| <= MAXBYTES
    requires Mkfs.Appended(b0, ino0, b1, ino1, i, |c[i]|, data)
    ensures Reads(b1, ino1, c[i := c[i] + data])
  {
    hide ByteAt;
    var c1 := c[i := c[i] + data];
    forall j | 0 <= j < |ino1|
      ensures ReadsAs(b1, ino1[j], c1[j])
    {
      assert ReadsAs(b0, ino0[j], c[j]);
    }
  }

  lemma SameReads(b0: seq<Block>, ino0: seq<Inode>, b1: seq<Block>, ino1: seq<Inode>, c: seq<seq<Byte>>)
    requires Reads(b0, ino0, c) && SameBytes(b0, ino0, b1, ino1)
    ensures Reads(b1, ino1, c)
  {
    hide ByteAt;
    forall j | 0 <= j < |ino1|
      ensures ReadsAs(b1, ino1[j], c[j])
    {
      assert ReadsAs(b0, ino0[j], c[j]);
    }
  }

  method NewInode(image: Mkfs.Image, kind: nat, ghost c: seq<seq<Byte>>) returns (inum: nat)
    requires Built(image, c) && image.freeinode < |image.ino|
    modifies image`ino, image`freeinode
    ensures Built(image, c) && inum == old(image.freeinode) < |c| && image.freeinode == inum + 1 && c[inum] == []
    ensures image.ino == old(image.ino)[inum := Inode(kind, 1, 0, Mkfs.ZeroAddrs())]
  {
    hide Own;
    hide ReadsAs;
    hide Mkfs.Exact;
    ghost var full := Mkfs.Full(image.sb, image.blocks);
    inum := image.Ialloc(kind);
    BareReads(full, image.ino[inum]);
  }

  method Append(image: Mkfs.Image, i: nat, data: seq<Byte>, ghost c: seq<seq<Byte>>)
    requires Built(image, c) && i < |image.ino| && i < image.freeinode && image.ino[i].size + |data| <= MAXBYTES
    requires image.freeblock + 2 * Mkfs.Turns(image.ino[i].size, |data|) <= image.sb.size
    modifies image`blocks, image`ino, image`freeblock, image`owner
    ensures i < |c| && Built(image, c[i := c[i] + data]) && |image.ino| == |old(image.ino)|
    ensures image.freeblock <= old(image.freeblock) + 2 * Mkfs.Turns(old(image.ino)[i].size, |data|)
    ensures image.ino[i].kind == old(image.ino)[i].kind && image.ino[i].nlink == old(image.ino)[i].nlink
            && image.ino[i].size == old(image.ino)[i].size + |data|
    ensures forall j :: 0 <= j < |image.ino| && j != i ==> image.ino[j] == old(image.ino)[j]
  {
    hide Own;
    hide ReadsAs;
    hide Mkfs.Exact;
    hide Mkfs.Appended;
    hide Mkfs.Turns;
    ghost var full, ino := Mkfs.Full(image.sb, image.blocks), image.ino;
    image.Iappend(i, data);
    AppendedShape(full, ino, Mkfs.Full(image.sb, image.blocks), image.ino, i, data);
    AppendedReads(full, ino, Mkfs.Full(image.sb, image.blocks), image.ino, c, i, data);
  }

  lemma AppendedShape(b0: seq<Block>, ino0: seq<Inode>, b1: seq<Block>, ino1: seq<Inode>, i: nat, data: seq<Byte>)
    requires i < |ino0| && Mkfs.Appended(b0, ino0, b1, ino1, i, ino0[i].size, data)
    ensures |ino1| == |ino0|
  {
  }

  // ---------- main ----------

  /** A directory as bytes. */
  ghost function Flat(es: seq<D.Dirent>): (s: seq<Byte>)
    requires forall e :: e in es ==> Storable(e)
    ensures |s| == DESIZE * |es|
  {
    if es == [] then [] else Flat(es[..|es| - 1]) + Encode(es[|es| - 1])
  }

  lemma {:induction false} FlatAt(es: seq<D.Dirent>, k: nat, j: nat)
    requires (forall e :: e in es ==> Storable(e)) && k < |es| && j < DESIZE
    ensures Flat(es)[DESIZE * k + j] == Encode(es[k])[j]
  {
    if k < |es| - 1 {
      FlatAt(es[..|es| - 1], k, j);
    }
  }

  lemma FlatMore(es: seq<D.Dirent>, e: D.Dirent)
    requires (forall x :: x in es ==> Storable(x)) && Storable(e)
    ensures forall x :: x in es + [e] ==> Storable(x)
    ensures Flat(es + [e]) == Flat(es) + Encode(e)
  {
    assert (es + [e])[..|es|] == es;
  }

  function Blanks(n: nat): (es: seq<D.Dirent>) {
    seq(n, _ => D.Blank())
  }

  /** A file that reads as the entries and has room for more is the directory of these
      entries and blank ones. */
  lemma FlatHolds(blocks: seq<Block>, n: Inode, es: seq<D.Dirent>, pad: nat)
    requires (forall e :: e in es ==> Storable(e)) && ReadsAs(blocks, n, Flat(es))
    requires n.size == DESIZE * (|es| + pad) <= MAXBYTES
    ensures Holds(blocks, n, es + Blanks(pad))
  {
    hide ByteAt;
    hide Flat;
    hide Encode;
    hide EntryIs;
    var all := es + Blanks(pad);
    forall k: nat | k < |all|
      ensures EntryIs(blocks, n, k, all[k])
    {
      FlatEntry(blocks, n, es, k);
    }
  }

  lemma FlatEntry(blocks: seq<Block>, n: Inode, es: seq<D.Dirent>, k: nat)
    requires (forall e :: e in es ==> Storable(e)) && ReadsAs(blocks, n, Flat(es)) && DESIZE * k + DESIZE <= MAXBYTES
    ensures EntryIs(blocks, n, k, if k < |es| then es[k] else D.Blank())
  {
    hide ByteAt;
    hide Flat;
    hide Encode;
    forall j | 0 <= j < DESIZE
      ensures ByteAt(blocks, n, DESIZE * k + j) == if k < |es| then Encode(es[k])[j] else Encode(D.Blank())[j]
    {
      if k < |es| {
        FlatAt(es, k, j);
      } else {
        BlankBytes(j);
      }
    }
  }

  lemma BlankBytes(j: nat)
    requires j < DESIZE
    ensures Encode(D.Blank())[j] == 0
  {
  }

  /** The root directory of an image with these files. */
  function RootEntries(files: seq<File>): (es: seq<D.Dirent>)
    requires |files| < 65534
    ensures |es| == |files| + 2 && forall e :: e in es ==> Storable(e)
  {
    L.Dots(ROOT, ROOT) + seq(|files|, k requires 0 <= k < |files| => D.Dirent(k + 2, D.Pack(files[k].name)))
  }

  lemma RootMore(files: seq<File>, n: nat)
    requires n < |files| < 65534
    ensures RootEntries(files[..n + 1]) == RootEntries(files[..n]) + [D.Dirent(n + 2, D.Pack(files[n].name))]
  {
  }

  /** Blocks enough for the files: two for every one written in. */
  ghost function Cost(files: seq<File>): (r: nat) {
    if files == [] then 4 else Cost(files[..|files| - 1]) + 2 + 2 * Chunks(|files[|files| - 1].data|)
  }

  /** How many reads of BSIZE bytes it takes. */
  function Chunks(n: nat): (r: nat) {
    (n + BSIZE - 1) / BSIZE
  }

  lemma {:induction false} CostGrows(files: seq<File>, n: nat)
    requires n <= |files|
    ensures Cost(files[..n]) <= Cost(files)
    decreases |files|
  {
    if n < |files| {
      CostGrows(files[..|files| - 1], n);
      assert files[..|files| - 1][..n] == files[..n];
    } else {
      assert files[..n] == files;
    }
  }

  lemma OneTurn(off: nat, n: nat)
    requires 0 < n && off % BSIZE + n <= BSIZE
    ensures Mkfs.Turns(off, n) == 1
  {
  }

  lemma ChunksOf(q: nat, d: nat)
    requires 0 < d
    ensures Chunks(q * BSIZE) == q && Chunks(q * BSIZE + d) > q && (d <= BSIZE ==> Chunks(q * BSIZE + d) == q + 1)
  {
  }

  lemma ChunkMore(n: nat, len: nat)
    requires n < len && n % BSIZE == 0
    ensures var cc := if len - n < BSIZE then len - n else BSIZE;
            Chunks(n + cc) == Chunks(n) + 1 <= Chunks(len) && (n + cc < len ==> (n + cc) % BSIZE == 0)
  {
    hide Chunks;
    var cc := if len - n < BSIZE then len - n else BSIZE;
    ChunksOf(n / BSIZE, len - n);
    ChunksOf(n / BSIZE, cc);
  }

  /** The loop that copies a file into the image. */
  method CopyIn(image: Mkfs.Image, i: nat, data: seq<Byte>, ghost c: seq<seq<Byte>>)
    requires Built(image, c) && i < |image.ino| && i < image.freeinode && image.ino[i].size == 0 && |data| <= MAXBYTES
    requires image.freeblock + 2 * Chunks(|data|) <= image.sb.size
    modifies image`blocks, image`ino, image`freeblock, image`owner
    ensures i < |c| && Built(image, c[i := data]) && |image.ino| == |old(image.ino)|
    ensures image.freeblock <= old(image.freeblock) + 2 * Chunks(|data|)
    ensures image.ino[i].kind == old(image.ino)[i].kind && image.ino[i].nlink == old(image.ino)[i].nlink
    ensures forall j :: 0 <= j < |image.ino| && j != i ==> image.ino[j] == old(image.ino)[j]
  {
    hide Built;
    hide Chunks;
    hide Mkfs.Turns;
    BuiltSize(image, c);
    var n := 0;
    assert c[i := data[..0]] == c;
    NoChunks();
    while n < |data|
      invariant 0 <= n <= |data| && (n < |data| ==> n % BSIZE == 0) && |image.ino| == |old(image.ino)| == |c|
      invariant Built(image, c[i := data[..n]]) && image.ino[i].size == n && i < image.freeinode
      invariant Chunks(n) <= Chunks(|data|) && image.freeblock <= old(image.freeblock) + 2 * Chunks(n)
      invariant image.ino[i].kind == old(image.ino)[i].kind && image.ino[i].nlink == old(image.ino)[i].nlink
      invariant forall j :: 0 <= j < |image.ino| && j != i ==> image.ino[j] == old(image.ino)[j]
    {
      var cc := if |data| - n < BSIZE then |data| - n else BSIZE;
      OneTurn(n, cc);
      ChunkMore(n, |data|);
      ghost var c1 := c[i := data[..n]];
      Append(image, i, data[n..n + cc], c1);
      assert data[..n] + data[n..n + cc] == data[..n + cc];
      assert c1[i := c1[i] + data[n..n + cc]] == c[i := data[..n + cc]];
      n := n + cc;
    }
    assert data[..n] == data;
  }

  lemma NoChunks()
    ensures Chunks(0) == 0
  {
  }

  lemma BuiltSize(image: Mkfs.Image, c: seq<seq<Byte>>)
    requires Built(image, c)
    ensures |c| == |image.ino| && forall j :: 0 <= j < |c| ==> |c[j]| == image.ino[j].size
  {
  }

  /** What the files before n have become. */
  ghost predicate Stored(ino: seq<Inode>, c: seq<seq<Byte>>, files: seq<File>, n: nat)
    requires n <= |files| < 65534
  {
    && n + 2 <= |ino| == |c| && c[ROOT] == Flat(RootEntries(files[..n])) && ino[ROOT].kind == T_DIR
       && ino[ROOT].nlink == 1
    && forall j :: 2 <= j < n + 2 ==> c[j] == files[j - 2].data && ino[j].kind == T_FILE && ino[j].nlink == 1
  }

  /** One turn of the loop over the files. */
  method AddFile(image: Mkfs.Image, files: seq<File>, n: nat, ghost c: seq<seq<Byte>>)
      returns (ghost c': seq<seq<Byte>>)
    requires n < |files| && |files| + 2 <= |image.ino| <= 17152 && |files[n].data| <= MAXBYTES
    requires Built(image, c) && Stored(image.ino, c, files, n) && image.freeinode == n + 2
    requires image.freeblock + 2 + 2 * Chunks(|files[n].data|) <= image.sb.size
    modifies image`blocks, image`ino, image`freeblock, image`owner, image`freeinode
    ensures Built(image, c') && Stored(image.ino, c', files, n + 1) && image.freeinode == n + 3
    ensures image.freeblock <= old(image.freeblock) + 2 + 2 * Chunks(|files[n].data|) && |image.ino| == |old(image.ino)|
  {
    hide Built;
    hide Chunks;
    hide Mkfs.Turns;
    hide Encode;
    hide RootEntries;
    hide Flat;
    BuiltSize(image, c);
    var inum := NewInode(image, T_FILE, c);
    var e := D.Dirent(inum, D.Pack(files[n].name));
    RootMore(files, n);
    FlatMore(RootEntries(files[..n]), e);
    EntryTurn(n + 2);
    Append(image, ROOT, Encode(e), c);
    c' := c[ROOT := c[ROOT] + Encode(e)];
    BuiltSize(image, c');
    CopyIn(image, inum, files[n].data, c');
    c' := c'[inum := files[n].data];
    BuiltSize(image, c');
  }

  lemma EntryTurn(m: nat)
    requires m < 17152
    ensures DESIZE * m + DESIZE <= MAXBYTES && Mkfs.Turns(DESIZE * m, DESIZE) == 1
  {
  }

  /** The size that the root ends up with. */
  function RootSize(n: nat): (r: nat) {
    (DESIZE * (n + 2) / BSIZE + 1) * BSIZE
  }

  lemma RootPads(n: nat)
    requires n < 198
    ensures DESIZE * (n + 2) <= RootSize(n) <= MAXBYTES && RootSize(n) % DESIZE == 0
    ensures DESIZE * (n + 2) % BSIZE == 0 <==> (n + 2) % 64 == 0
  {
  }

  /** The files fit: inodes, sizes and blocks. */
  ghost predicate Fit(files: seq<File>) {
    && |files| + 2 < DISK.ninodes && DISK.data + Cost(files) < DISK.size
    && forall k :: 0 <= k < |files| ==> |files[k].data| <= MAXBYTES
  }

  /** The files are in the image, and the root has their names. */
  ghost predicate HasFiles(blocks: seq<Block>, ino: seq<Inode>, files: seq<File>) {
    && |files| + 2 <= |ino| && |files| < 198
    && ino[ROOT].kind == T_DIR && ino[ROOT].nlink == 1 && ino[ROOT].size == RootSize(|files|)
    && Holds(blocks, ino[ROOT], RootEntries(files) + Blanks(RootSize(|files|) / DESIZE - (|files| + 2)))
    && forall j :: 2 <= j < |files| + 2 ==>
         && ino[j].kind == T_FILE && ino[j].nlink == 1 && ino[j].size == |files[j - 2].data|
         && ReadsAs(blocks, ino[j], files[j - 2].data)
  }

  lemma StartsEmpty(image: Mkfs.Image)
    requires image.Valid() && image.Packed() && forall i :: 0 <= i < |image.ino| ==>
               image.ino[i] == Inode(0, 0, 0, Mkfs.ZeroAddrs())
    ensures Built(image, seq(|image.ino|, _ => []))
  {
    hide Own;
    hide ReadsAs;
    hide Mkfs.Exact;
    forall j | 0 <= j < |image.ino|
      ensures ReadsAs(Mkfs.Full(image.sb, image.blocks), image.ino[j], [])
    {
      BareReads(Mkfs.Full(image.sb, image.blocks), image.ino[j]);
    }
  }

  /** The entries that main starts the root with. */
  lemma DotsAre(dot: D.Dirent, dotdot: D.Dirent)
    requires dot == D.Dirent(ROOT, D.Pack(L.DOT)) && dotdot == D.Dirent(ROOT, D.Pack(L.DOTDOT))
    ensures RootEntries([]) == [dot, dotdot] && Flat(RootEntries([])) == Encode(dot) + Encode(dotdot)
  {
    hide Encode;
    FlatMore([], dot);
    FlatMore([dot], dotdot);
    assert [] + [dot] == [dot] && [dot] + [dotdot] == [dot, dotdot];
    assert RootEntries([]) == [dot, dotdot];
  }

  /** The root directory with "." and "..". */
  method MakeRoot() returns (image: Mkfs.Image, ghost c: seq<seq<Byte>>)
    ensures fresh(image) && image.sb == DISK && |image.ino| == DISK.ninodes && Built(image, c)
    ensures Stored(image.ino, c, [], 0) && image.freeinode == 2 && image.freeblock <= DISK.data + 4
  {
    hide Own;
    hide Built;
    hide Encode;
    hide Flat;
    hide RootEntries;
    hide D.Pack;
    hide Mkfs.Exact;
    hide Mkfs.Turns;
    image := new Mkfs.Image(DISK);
    c := seq(DISK.ninodes, _ => []);
    StartsEmpty(image);
    var root := NewInode(image, T_DIR, c);
    var dot, dotdot := D.Dirent(root, D.Pack(L.DOT)), D.Dirent(root, D.Pack(L.DOTDOT));
    DotsAre(dot, dotdot);
    EntryTurn(0);
    EntryTurn(1);
    BuiltSize(image, c);
    Append(image, root, Encode(dot), c);
    c := c[root := c[root] + Encode(dot)];
    BuiltSize(image, c);
    Append(image, root, Encode(dotdot), c);
    c := c[root := c[root] + Encode(dotdot)];
    BuiltSize(image, c);
    assert [] + Encode(dot) == Encode(dot);
    ghost var none: seq<File> := [];
    assert none[..0] == none;
  }

  /** The end of main: the root's size is fixed and the bitmap written. */
  method Finish(image: Mkfs.Image, files: seq<File>, ghost c: seq<seq<Byte>>) returns (fs: Fs)
    requires Built(image, c) && Fit(files) && image.sb == DISK && |image.ino| == DISK.ninodes
    requires Stored(image.ino, c, files, |files|) && image.freeinode == |files| + 2 && image.freeblock < DISK.size
    modifies image
    ensures fresh(fs) && fs.Valid({}) && fs.OnDisk() && fs.sb == DISK && fs.outstanding == 0 && |fs.ino| == DISK.ninodes
    ensures HasFiles(fs.blocks, fs.ino, files)
    ensures Mkfs.Holed(fs.blocks, fs.ino[ROOT]) <==> (|files| + 2) % 64 == 0
    ensures forall j :: 0 <= j < |fs.ino| && j != ROOT ==> NoHoles(fs.blocks, fs.ino[j])
    ensures Mkfs.Exact(fs.owner, ROOT, DESIZE * (|files| + 2)) && !AllUsed(fs.sb, fs.blocks)
  {
    hide Own;
    hide Encode;
    hide RootEntries;
    hide Flat;
    hide ReadsAs;
    hide Mkfs.Exact;
    hide Mkfs.Holed;
    hide Holds;
    hide NoHoles;
    hide AllUsed;
    hide Cost;
    hide RootSize;
    hide SameBytes;
    assert files[..|files|] == files;
    RootPads(|files|);
    ghost var ino0, full0 := image.ino, Mkfs.Full(image.sb, image.blocks);
    image.FixRoot(ROOT);
    RootSizeIs(|files|);
    SameReads(full0, ino0, full0, image.ino, c);
    image.Balloc();
    SameReads(full0, image.ino, image.blocks, image.ino, c);
    assert ReadsAs(image.blocks, image.ino[ROOT], c[ROOT]);
    FlatHolds(image.blocks, image.ino[ROOT], RootEntries(files), RootSize(|files|) / DESIZE - (|files| + 2));
    Mkfs.RootHole(DISK, image.blocks, image.ino, image.owner, {}, ROOT, ino0[ROOT].size);
    forall j | 0 <= j < |image.ino| && j != ROOT
      ensures NoHoles(image.blocks, image.ino[j])
    {
      ExactWhole(DISK, image.blocks, image.ino, image.owner, j);
    }
    OneFree(DISK, image.blocks, image.ino, image.owner, image.freeblock);
    fs := new Fs(DISK, image.blocks, image.ino, image.owner);
  }

  lemma RootSizeIs(n: nat)
    ensures RootSize(n) == (DESIZE * (n + 2) / BSIZE + 1) * BSIZE
  {
  }

  lemma ExactWhole(sb: Superblock, blocks: seq<Block>, ino: seq<Inode>, owner: Owner, j: nat)
    requires Own(sb, blocks, ino, owner, {}) && j < |ino| && Mkfs.Exact(owner, j, ino[j].size)
    ensures NoHoles(blocks, ino[j])
  {
    hide Own;
    hide Ptr;
    hide Slots;
    SlotIs(sb, blocks, ino, owner, {}, j, 0);
    forall bn | 0 <= bn < MAXFILE && bn * BSIZE < ino[j].size
      ensures Ptr(blocks, ino[j], SlotOf(bn)) != 0
    {
      SlotIs(sb, blocks, ino, owner, {}, j, SlotOf(bn));
    }
  }

  lemma OneFree(sb: Superblock, blocks: seq<Block>, ino: seq<Inode>, owner: Owner, freeblock: nat)
    requires Own(sb, blocks, ino, owner, {}) && sb.data <= freeblock < sb.size && forall b :: b in owner ==>
               b < freeblock
    ensures !AllUsed(sb, blocks)
  {
    hide PtrsOwned;
    hide Used;
    assert !Used(sb, blocks, freeblock);
  }

  /** main. The kernel finds every file with its bytes and its name in the root; the
      root has a hole exactly when the number of its entries is a multiple of 64. */
  method MakeFs(files: seq<File>) returns (fs: Fs)
    requires Fit(files)
    ensures fresh(fs) && fs.Valid({}) && fs.OnDisk() && fs.sb == DISK && fs.outstanding == 0 && |fs.ino| == DISK.ninodes
    ensures HasFiles(fs.blocks, fs.ino, files)
    ensures Mkfs.Holed(fs.blocks, fs.ino[ROOT]) <==> (|files| + 2) % 64 == 0
    ensures forall j :: 0 <= j < |fs.ino| && j != ROOT ==> NoHoles(fs.blocks, fs.ino[j])
    ensures Mkfs.Exact(fs.owner, ROOT, DESIZE * (|files| + 2)) && !AllUsed(fs.sb, fs.blocks)
  {
    hide Own;
    hide Built;
    hide Encode;
    hide RootEntries;
    hide Flat;
    hide Chunks;
    var image;
    ghost var c;
    image, c := MakeRoot();
    assert files[..0] == [];
    var n := 0;
    while n < |files|
      invariant 0 <= n <= |files| && Built(image, c) && |image.ino| == DISK.ninodes && image.sb == DISK
      invariant Stored(image.ino, c, files, n) && image.freeinode == n + 2
      invariant image.freeblock <= DISK.data + Cost(files[..n])
    {
      CostGrows(files, n + 1);
      assert files[..n + 1][..n] == files[..n];
      c := AddFile(image, files, n, c);
      n := n + 1;
    }
    assert files[..n] == files;
    fs := Finish(image, files, c);
  }

  // ---------- link counts ----------

  /** The names that main is given: mkfs relies on their being different. */
  ghost predicate GoodNames(files: seq<File>) {
    && (forall k :: 0 <= k < |files| ==> D.Cut(files[k].name) != L.DOT && D.Cut(files[k].name) != L.DOTDOT)
    && forall j, k :: 0 <= j < k < |files| ==> D.Cut(files[j].name) != D.Cut(files[k].name)
  }

  /** The image as a tree of inodes. */
  ghost function TreeOf(files: seq<File>, pad: nat): (t: L.Tree)
    requires |files| < 65534
  {
    map j: nat | 1 <= j < |files| + 2 :: InodeOf(files, pad, j)
  }

  ghost function InodeOf(files: seq<File>, pad: nat, j: nat): (n: L.Inode)
    requires |files| < 65534
  {
    if j == ROOT then L.Inode(L.Dir, 1, RootEntries(files) + Blanks(pad)) else L.Inode(L.File, 1, [])
  }

  lemma EntryName(files: seq<File>, pad: nat, k: nat)
    requires |files| < 65534 && GoodNames(files) && k < |files| + 2 + pad
    ensures var es := RootEntries(files) + Blanks(pad);
            && es[k].inum == (if k < 2 then ROOT else if k < |files| + 2 then k else 0)
            && (k == 0 ==> D.Name(es[k]) == L.DOT) && (k == 1 ==> D.Name(es[k]) == L.DOTDOT)
            && (2 <= k < |files| + 2 ==> D.Name(es[k]) == D.Cut(files[k - 2].name))
  {
    hide D.Pack;
    hide D.Unpack;
    L.DotNames();
    if 2 <= k < |files| + 2 {
      D.UnpackPack(files[k - 2].name);
    }
  }

  /** What mkfs makes has the right link counts. */
  lemma TreeOk(files: seq<File>, pad: nat)
    requires |files| < 65534 && GoodNames(files)
    ensures L.Ok(TreeOf(files, pad), map[])
  {
    hide D.Pack;
    hide D.Unpack;
    hide D.Cut;
    hide RootEntries;
    var t, es := TreeOf(files, pad), RootEntries(files) + Blanks(pad);
    forall k: nat | k < |es|
      ensures es[k].inum == (if k < 2 then ROOT else if k < |files| + 2 then k else 0)
      ensures (k == 0 ==> D.Name(es[k]) == L.DOT) && (k == 1 ==> D.Name(es[k]) == L.DOTDOT)
      ensures 2 <= k < |files| + 2 ==> D.Name(es[k]) == D.Cut(files[k - 2].name)
    {
      EntryName(files, pad, k);
    }
    L.DotNames();
    forall i: nat | i in t
      ensures L.Refs(t, i) == {(ROOT, i)}
    {
      assert L.Refers(t, ROOT, i, i);
    }
  }

  // ---------- reading a hole and leaving bytes behind ----------

  lemma {:induction false} CostEmpty(files: seq<File>)
    requires forall k :: 0 <= k < |files| ==> files[k].data == []
    ensures Cost(files) == 4 + 2 * |files|
    decreases |files|
  {
    if files != [] {
      CostEmpty(files[..|files| - 1]);
      NoChunks();
    }
  }

  /** mkfs of 62 empty files: with "." and ".." the root's entries fill its one block, and
      main adds a block to its size. */
  method FullRoot() returns (fs: Fs)
    ensures fresh(fs) && fs.Valid({}) && fs.OnDisk() && fs.sb == DISK && fs.outstanding == 0 && ROOT < |fs.ino|
    ensures fs.ino[ROOT].size == 2 * BSIZE && InodeOk(fs.blocks, fs.ino[ROOT]) && Mkfs.Holed(fs.blocks, fs.ino[ROOT])
    ensures fs.ino[ROOT].addrs[1] == 0 && Room(DISK, fs.blocks) > 0
  {
    hide Own;
    hide Mkfs.Holed;
    hide HasFiles;
    hide AllUsed;
    hide Room;
    var files: seq<File> := seq(62, k requires 0 <= k < 62 => File([97, 48 + k], []));
    CostEmpty(files);
    fs := MakeFs(files);
    RootIs(fs.blocks, fs.ino, files);
    RoomIs(DISK, fs.blocks, fs.ino, fs.owner);
    SlotIs(DISK, fs.blocks, fs.ino, fs.owner, {}, ROOT, 1);
    NoSecond(fs.owner);
  }

  lemma RootIs(blocks: seq<Block>, ino: seq<Inode>, files: seq<File>)
    requires HasFiles(blocks, ino, files) && |files| == 62
    ensures ino[ROOT].size == 2 * BSIZE
  {
  }

  lemma NoSecond(owner: Owner)
    requires Mkfs.Exact(owner, ROOT, BSIZE)
    ensures (ROOT, 1) !in Slots(owner)
  {
    hide Slots;
    assert SlotOf(1) == 1;
  }

  /** The one slot that the second block of a file takes. */
  lemma SecondSought(blocks: seq<Block>, n: Inode)
    requires InodeOk(blocks, n) && n.addrs[1] == 0
    ensures Needed(blocks, n, 1, 2) == 1 && InodeHole(n, 1, 2) && LookEnd(BSIZE, 1, 1) == 2
  {
    assert Sought(1, 2) == {1};
    assert Empty(blocks, n, {1}) == {1};
    assert Seeks(1, 1, 2);
  }

  /** In an operation, as in dirlookup, reading a byte of the root's second block changes
      its inode, in memory only. */
  method HoleRead() returns (panic: bool, r: int, same: bool, ghost clean: bool)
    ensures !panic && r == 1 && !same && !clean
  {
    hide Own;
    hide Mkfs.Holed;
    hide Needed;
    hide Room;
    hide LookEnd;
    hide InodeHole;
    var fs := FullRoot();
    fs.outstanding := 1;
    var before := fs.ino[ROOT];
    SecondSought(fs.blocks, before);
    var out;
    panic, r, out := Readi(fs, ROOT, BSIZE, 1, 1);
    same := fs.ino[ROOT] == before;
    clean := fs.OnDisk();
  }

  /** Outside of one, as in fileread, it panics. */
  method HoleReadOutside() returns (panic: bool)
    ensures panic
  {
    hide Own;
    hide Mkfs.Holed;
    hide Needed;
    hide Room;
    hide LookEnd;
    var fs := FullRoot();
    SecondSought(fs.blocks, fs.ino[ROOT]);
    var r, out;
    panic, r, out := Readi(fs, ROOT, BSIZE, 1, 1);
  }

  /** mkfs of one file of two bytes. */
  method TwoBytes() returns (fs: Fs)
    ensures fresh(fs) && fs.Valid({}) && fs.sb == DISK && 2 < |fs.ino| && fs.ino[2].size == 2
    ensures InodeOk(fs.blocks, fs.ino[2]) && Needed(fs.blocks, fs.ino[2], 0, LookEnd(0, 2, 1)) == 0
  {
    hide Own;
    hide Mkfs.Holed;
    hide HasFiles;
    hide Needed;
    hide NoHoles;
    var files := [File([97], [1, 2])];
    OneFile(files);
    fs := MakeFs(files);
    FileIs(fs.blocks, fs.ino, files);
    WholeNeedsNone(fs.blocks, fs.ino[2]);
  }

  /** copyin of a write over both bytes of that file gets one of them: it shows in the
      file, but writei returns 0. */
  method LeakyWrite() returns (r: int, leak: nat, ghost seen: Byte)
    ensures r == 0 && leak == 1 && seen == 7
  {
    hide Own;
    hide Needed;
    hide Room;
    hide ByteAt;
    hide NoHoles;
    hide Spliced;
    hide SameOthers;
    hide Short;
    hide StopsAt;
    hide AllUsed;
    hide Logs;
    hide Boundary;
    hide LookedTo;
    hide Spanned;
    hide LookEnd;
    var fs := TwoBytes();
    fs.outstanding := 1;
    var src: seq<Byte> := [7, 7];
    ghost var b0, n0 := fs.blocks, fs.ino[2];
    OwnerFits(DISK, fs.blocks, fs.ino, fs.owner);
    OneByteFits(b0, n0);
    var panic, full;
    ghost var datas;
    panic, r, leak, full, datas := Writei(fs, 2, 0, src, 1);
    SeenByte(b0, n0, fs.blocks, fs.ino[2], src[..r + leak]);
    seen := ByteAt(fs.blocks, fs.ino[2], 0);
  }

  lemma OneByteFits(blocks: seq<Block>, n: Inode)
    requires |blocks| == DISK.size && InodeOk(blocks, n) && Needed(blocks, n, 0, LookEnd(0, 2, 1)) == 0
    ensures !Short(DISK, blocks, n, 0, 2, 1) && !Boundary(1)
  {
    hide Needed;
    hide Room;
  }

  lemma SeenByte(blocks: seq<Block>, n: Inode, blocks': seq<Block>, n': Inode, src: seq<Byte>)
    requires InodeOk(blocks, n) && InodeOk(blocks', n') && Spliced(blocks, n, blocks', n', 0, src) && |src| == 1
    ensures ByteAt(blocks', n', 0) == src[0]
  {
    hide ByteAt;
  }

  lemma OneFile(files: seq<File>)
    requires |files| == 1 && |files[0].data| == 2
    ensures Fit(files)
  {
    assert files[..0] == [];
    assert Cost(files[..0]) == 4;
    assert Chunks(2) == 1;
  }

  lemma FileIs(blocks: seq<Block>, ino: seq<Inode>, files: seq<File>)
    requires HasFiles(blocks, ino, files) && |files| == 1 && files[0].data == [1, 2]
    ensures ino[2].size == 2
  {
  }

  lemma WholeNeedsNone(blocks: seq<Block>, n: Inode)
    requires NoHoles(blocks, n) && n.size == 2
    ensures InodeOk(blocks, n) && Needed(blocks, n, 0, LookEnd(0, 2, 1)) == 0
  {
    hide Needed;
    hide Ptr;
    MappedNeedNone(blocks, n, 0, 2, 1);
  }
}
