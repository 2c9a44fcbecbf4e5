/** The memory side of kernel/exec.c: a new image is built beside the old one,
    which is freed when the new one is complete; on any failure the new one is
    freed, and nothing is left of it. */
module Exec {
  import opened Base
  import opened PageTable
  import opened Vm
  import opened UserMemory
  import opened Teardown
  import opened ProcMemory
  import opened Argv

  type Uint64 = x: nat | x < 0x1_0000_0000_0000_0000

  /** A program header, with what the file holds from its offset on. */
  datatype Segment = Segment(vaddr: Uint64, memsz: Uint64, filesz: Uint64, executable: bool, writable: bool,
                             file: seq<Byte>)

  /** Every page below sz is mapped for the user. */
  ghost predicate AllUser(tables: Tables, root: nat, sz: nat) {
    forall v: nat :: v < Up(sz) ==> Lookup(tables, root, v).v && Lookup(tables, root, v).u
  }

  /** loadseg takes filesz as a uint. */
  function Loads(ph: Segment): (r: nat)
    ensures r <= ph.filesz && (r == ph.filesz <==> ph.filesz < 0x1_0000_0000)
  {
    ph.filesz % 0x1_0000_0000
  }

  /** What the program headers put at address a: the last one that covers it
      decides, and what none covers is zero. */
  ghost function ImageByte(segs: seq<Segment>, a: nat): (r: Byte) {
    if segs == [] then 0
    else
      var ph := segs[|segs| - 1];
      if ph.vaddr <= a < ph.vaddr + Loads(ph) && a - ph.vaddr < |ph.file| then ph.file[a - ph.vaddr]
      else ImageByte(segs[..|segs| - 1], a)
  }

  /** Where the image ends. */
  ghost function ImageEnd(segs: seq<Segment>): (r: nat) {
    if segs == [] then 0
    else
      var ph := segs[|segs| - 1];
      var end := ImageEnd(segs[..|segs| - 1]);
      if ph.vaddr + ph.memsz < end then end else ph.vaddr + ph.memsz
  }

  ghost predicate WellFormed(ph: Segment) {
    && ph.filesz <= ph.memsz && Loads(ph) <= |ph.file| && ph.vaddr % PGSIZE == 0
    && ph.vaddr + ph.memsz < 0x1_0000_0000_0000_0000
  }

  /** vaddr + memsz in 64 bits. */
  function Sum64(ph: Segment): (r: Uint64)
    ensures r < ph.vaddr <==> ph.vaddr + ph.memsz >= 0x1_0000_0000_0000_0000
    ensures r >= ph.vaddr ==> r == ph.vaddr + ph.memsz
  {
    (ph.vaddr + ph.memsz) % 0x1_0000_0000_0000_0000
  }

  /** A header that asks for four bytes more than 4 GB of a file of four bytes is as good
      as one that asks for four. */
  lemma CutHeader(more: Segment, four: Segment, a: nat)
    requires more == Segment(0, 0x1_0000_0004, 0x1_0000_0004, true, false, [1, 2, 3, 4]) && four == more.(filesz := 4)
    ensures more.filesz > |more.file| && WellFormed(more) && WellFormed(four)
    ensures ImageByte([more], a) == ImageByte([four], a)
  {
    assert [more][..0] == [] && [four][..0] == [];
  }

  /** Headers that can be loaded. The first must not be empty: uvmalloc's result
      for an empty space is also its error. */
  ghost predicate Loadable(segs: seq<Segment>) {
    (forall k :: 0 <= k < |segs| ==> WellFormed(segs[k])) && (segs != [] ==> segs[0].vaddr + segs[0].memsz > 0)
  }

  lemma {:induction false} ImageEndGrows(segs: seq<Segment>, k: nat)
    requires k <= |segs|
    ensures ImageEnd(segs[..k]) <= ImageEnd(segs) && Up(ImageEnd(segs[..k])) <= Up(ImageEnd(segs))
    ensures k > 0 && segs[0].vaddr + segs[0].memsz > 0 ==> ImageEnd(segs[..k]) > 0
    decreases |segs|, k
  {
    if k < |segs| {
      var init := segs[..|segs| - 1];
      ImageEndGrows(init, k);
      assert init[..k] == segs[..k];
    } else {
      assert segs[..k] == segs;
      if k > 1 {
        var init := segs[..k - 1];
        ImageEndGrows(init, k - 1);
        assert init[..k - 1] == init;
      }
    }
    UpMono(ImageEnd(segs[..k]), ImageEnd(segs));
  }

  /** The user sees the image in every page up to its end. */
  ghost predicate Shows(t: Tables, d: Contents, root: nat, sz: nat, segs: seq<Segment>) {
    forall a: nat :: a < Up(ImageEnd(segs)) * PGSIZE ==> View(t, d, root, sz, a) == Some(ImageByte(segs, a))
  }

  /** A page of header ph, with the rights that it asks for. */
  ghost predicate PageOf(e: Pte, ph: Segment) {
    e.v && SameFlags(e, Pte(true, true, ph.writable, ph.executable, true, 0))
  }

  /** Every page of the image is mapped with the rights of the header that brought it. */
  ghost predicate Protected(t: Tables, root: nat, segs: seq<Segment>) {
    forall k, v: nat :: 0 <= k < |segs| && Up(ImageEnd(segs[..k])) <= v < Up(ImageEnd(segs[..k + 1])) ==>
      PageOf(Lookup(t, root, v), segs[k])
  }

  /** One header more. */
  lemma ProtectedMore(t0: Tables, t1: Tables, root: nat, segs: seq<Segment>, k: nat)
    requires k < |segs| && Protected(t0, root, segs[..k])
    requires forall v: nat :: v < Up(ImageEnd(segs[..k])) ==> Lookup(t1, root, v) == Lookup(t0, root, v)
    requires forall v: nat :: Up(ImageEnd(segs[..k])) <= v < Up(ImageEnd(segs[..k + 1])) ==>
               PageOf(Lookup(t1, root, v), segs[k])
    ensures Protected(t1, root, segs[..k + 1])
  {
    hide Lookup;
    hide ImageEnd;
    hide PageOf;
    var more := segs[..k + 1];
    forall j, v: nat | 0 <= j < k + 1 && Up(ImageEnd(more[..j])) <= v < Up(ImageEnd(more[..j + 1]))
      ensures PageOf(Lookup(t1, root, v), more[j])
    {
      assert more[..j] == segs[..j] && more[..j + 1] == segs[..j + 1];
      if j < k {
        assert segs[..k][..j] == segs[..j] && segs[..k][..j + 1] == segs[..j + 1];
        ImageEndGrows(segs[..k], j + 1);
        assert PageOf(Lookup(t0, root, v), segs[..k][j]);
      }
    }
  }

  /** What is below the end of the image is mapped as it was. */
  lemma ProtectedStays(t0: Tables, t1: Tables, root: nat, segs: seq<Segment>)
    requires Protected(t0, root, segs)
    requires forall v: nat :: v < Up(ImageEnd(segs)) ==> Lookup(t1, root, v) == Lookup(t0, root, v)
    ensures Protected(t1, root, segs)
  {
    hide Lookup;
    hide ImageEnd;
    hide PageOf;
    forall k, v: nat | 0 <= k < |segs| && Up(ImageEnd(segs[..k])) <= v < Up(ImageEnd(segs[..k + 1]))
      ensures PageOf(Lookup(t1, root, v), segs[k])
    {
      ImageEndGrows(segs, k + 1);
    }
  }

  lemma {:induction false} ZeroBeyond(segs: seq<Segment>, a: nat)
    requires (forall k :: 0 <= k < |segs| ==> WellFormed(segs[k])) && ImageEnd(segs) <= a
    ensures ImageByte(segs, a) == 0
  {
    if segs != [] {
      ZeroBeyond(segs[..|segs| - 1], a);
    }
  }

  /** uvmalloc and loadseg add one header's worth. */
  lemma ShowsMore(t0: Tables, d0: Contents, t1: Tables, d1: Contents, t2: Tables, d2: Contents, root: nat,
                  segs: seq<Segment>, k: nat, access: Access)
    requires k < |segs| && (forall j :: 0 <= j < k ==> WellFormed(segs[j])) && WellFormed(segs[k])
             && Up(ImageEnd(segs[..k + 1])) <= TRAPFRAME
    requires Shows(t0, d0, root, ImageEnd(segs[..k]), segs[..k])
    requires Resized(t0, d0, t1, d1, root, ImageEnd(segs[..k]), ImageEnd(segs[..k + 1]), access)
    requires Written(t1, d1, t2, d2, root, ImageEnd(segs[..k + 1]),
                     segs[k].vaddr, segs[k].file[..Loads(segs[k])], Loads(segs[k]))
    ensures Shows(t2, d2, root, ImageEnd(segs[..k + 1]), segs[..k + 1])
  {
    hide PageView;
    hide View;
    var sz, sz', ph := ImageEnd(segs[..k]), ImageEnd(segs[..k + 1]), segs[k];
    assert segs[..k + 1][..k] == segs[..k];
    forall a: nat | a < Up(sz') * PGSIZE
      ensures View(t2, d2, root, sz', a) == Some(ImageByte(segs[..k + 1], a))
    {
      GrownByte(t0, d0, t1, d1, root, segs[..k], sz', a, access);
    }
  }

  lemma GrownByte(t0: Tables, d0: Contents, t1: Tables, d1: Contents, root: nat, segs: seq<Segment>, sz': nat, a: nat,
                  access: Access)
    requires (forall j :: 0 <= j < |segs| ==> WellFormed(segs[j])) && Up(sz') <= TRAPFRAME && a < Up(sz') * PGSIZE
    requires Shows(t0, d0, root, ImageEnd(segs), segs) && Resized(t0, d0, t1, d1, root, ImageEnd(segs), sz', access)
    ensures View(t1, d1, root, sz', a) == Some(ImageByte(segs, a))
  {
    hide PageView;
    var sz := ImageEnd(segs);
    if a < Up(sz) * PGSIZE {
      assert View(t0, d0, root, sz, a) == Some(ImageByte(segs, a));
    } else {
      ZeroBeyond(segs, a);
    }
  }

  /** loadseg, into pages that are mapped: "address should exist" cannot happen.
      The bytes come from the file, which may be too short. */
  method Loadseg(vm: Vm, root: nat, va: nat, sz: nat, file: seq<Byte>, n: nat) returns (ok: bool, panic: bool)
    requires Space(vm, root, sz) && AllUser(vm.tables, root, sz) && va + n <= sz && va % PGSIZE == 0
    modifies vm
    ensures !panic && vm.Valid() && vm.tables == old(vm.tables) && vm.use == old(vm.use) && vm.free == old(vm.free)
    ensures OthersSee(old(vm.tables), old(vm.use), old(vm.data), vm.tables, vm.data, root)
    ensures ok ==> n <= |file| && Written(old(vm.tables), old(vm.data), vm.tables, vm.data, root, sz, va, file[..n], n)
    ensures n <= |file| ==> ok
  {
    hide Lookup;
    hide IsRoot;
    hide LeavesOk;
    hide TablesOk;
    hide FreeOk;
    hide TopOk;
    hide View;
    hide DataOk;
    hide Only;
    hide OthersSee;
    hide Written;
    ghost var t, u, d0 := vm.tables, vm.use, vm.data;
    ghost var src := if n <= |file| then file[..n] else file;
    CopyStarts(t, u, d0, root, sz, va, src);
    panic := false;
    var i := 0;
    while i < n
      invariant 0 <= i && (i % PGSIZE == 0 || i == n) && i <= n && i <= |src|
      invariant vm.Valid() && vm.tables == t && vm.use == u && vm.free == old(vm.free)
      invariant Written(t, d0, t, vm.data, root, sz, va, src, i) && OthersSee(t, u, d0, t, vm.data, root)
    {
      Aligned(va, i, n, sz);
      var pa := Walkaddr(vm, root, (va + i) / PGSIZE);
      if pa.None? {
        return false, true;
      }
      var k := if n - i < PGSIZE then n - i else PGSIZE;
      if i + k > |file| {
        return false, false;
      }
      assert file[i..i + k] == src[i..i + k];
      WrittenMore(t, d0, t, u, vm.data, root, sz, va, src, i, k);
      ghost var d1 := vm.data;
      vm.data := vm.data[pa.value := Splice(vm.data[pa.value], 0, file[i..i + k])];
      OthersSeeTrans(t, u, d0, t, u, d1, t, vm.data, root);
      i := i + k;
    }
    ok := true;
  }

  lemma Aligned(va: nat, i: nat, n: nat, sz: nat)
    requires va % PGSIZE == 0 && i % PGSIZE == 0 && i < n && va + n <= sz
    ensures (va + i) % PGSIZE == 0 && (va + i) / PGSIZE < Up(sz)
  {
    UpIs(sz, (va + i) / PGSIZE);
  }

  /** A space under construction: root is new since (t0, u0), whose other spaces
      are as they were. */
  ghost predicate Building(vm: Vm, root: nat, sz: nat, t0: Tables, u0: Uses, d0: Contents)
    reads vm
  {
    && Space(vm, root, sz) && Only(t0, u0, vm.tables, vm.use, root) && OthersSee(t0, u0, d0, vm.tables, vm.data, root)
    && |u0| < TRAPFRAME
  }

  lemma BuildingCrowded(vm: Vm, root: nat, sz: nat, t0: Tables, u0: Uses, d0: Contents)
    requires Building(vm, root, sz, t0, u0, d0) && AllUser(vm.tables, root, sz)
    ensures Crowded(vm.tables, vm.use, root, Up(sz))
  {
    hide Lookup;
    hide IsRoot;
    assert vm.use.Keys == u0.Keys;
  }

  lemma AllUserMore(t0: Tables, u0: Uses, t1: Tables, u1: Uses, root: nat, sz: nat, sz': nat, perm: Pte)
    requires AllUser(t0, root, sz) && Grew(t0, u0, t1, u1, root, Up(sz), Up(sz'), perm) && perm.u
             && IsRoot(t0, u0, root)
    requires sz <= sz' && Up(sz') <= TRAPFRAME
    ensures AllUser(t1, root, sz')
  {
    hide Lookup;
    hide IsRoot;
    forall v: nat | v < Up(sz')
      ensures Lookup(t1, root, v).v && Lookup(t1, root, v).u
    {
      if v >= Up(sz) {
        assert GrownAt(t0, u0, t1, root, v, perm);
      }
    }
  }

  /** uvmalloc for the new image: more of it, or as much as before. */
  method Extend(vm: Vm, root: nat, sz: nat, newsz: nat, perm: Pte, ghost t0: Tables, ghost u0: Uses, ghost d0: Contents)
      returns (sz': nat)
    requires Building(vm, root, sz, t0, u0, d0) && AllUser(vm.tables, root, sz) && perm.u && IsLeaf(perm)
    modifies vm
    ensures Building(vm, root, if sz' == 0 then sz else sz', t0, u0, d0) && TopSame(old(vm.tables), vm.tables, root)
    ensures sz' != 0 ==> sz' == (if newsz < sz then sz else newsz) && AllUser(vm.tables, root, sz')
    ensures sz' != 0 ==> forall v: nat :: Up(sz) <= v < Up(sz') ==>
              Lookup(vm.tables, root, v).v && SameFlags(Lookup(vm.tables, root, v), perm)
    ensures sz' != 0 ==> Resized(old(vm.tables), old(vm.data), vm.tables, vm.data, root, sz, sz',
                                 Access(perm.r, perm.w, perm.x))
    ensures sz' != 0 ==> forall v: nat :: v < Up(sz) ==> Lookup(vm.tables, root, v) == Lookup(old(vm.tables), root, v)
    ensures sz' != 0 ==> |vm.free| + PERPAGE * (Up(sz') - Up(sz)) >= |old(vm.free)|
    ensures sz' == 0 ==> newsz >= sz && (newsz == 0 || |old(vm.free)| < PERPAGE * (Up(newsz) - Up(sz)))
  {
    hide TablesOk;
    hide FreeOk;
    hide LeavesOk;
    hide Lookup;
    hide IsRoot;
    hide TopOk;
    hide Only;
    hide OthersSee;
    hide DataOk;
    hide Bounded;
    hide Grew;
    hide AllUser;
    hide Resized;
    ghost var t1, u1, d1 := vm.tables, vm.use, vm.data;
    LazySpace(t1, u1, d1, root, sz, sz, Access(perm.r, perm.w, perm.x));
    Unmapped(t1, root, sz);
    BuildingCrowded(vm, root, sz, t0, u0, d0);
    sz' := vm.Uvmalloc(root, sz, newsz, perm);
    if newsz >= sz {
      if sz' != 0 {
        GrewKept(t1, u1, vm.tables, vm.use, root, sz, newsz, perm);
        GrewSeen(t1, u1, d1, vm.tables, vm.use, vm.data, root, sz, newsz, perm);
        AllUserMore(t1, u1, vm.tables, vm.use, root, sz, newsz, perm);
        Flagged(t1, u1, vm.tables, vm.use, root, sz, newsz, perm);
      } else {
        SameSeen(t1, u1, d1, vm.tables, vm.use, vm.data, root, sz);
      }
      OthersSeeTrans(t0, u0, d0, t1, u1, d1, vm.tables, vm.data, root);
      OnlyTrans(t0, u0, t1, u1, vm.tables, vm.use, root);
    }
  }

  lemma Flagged(t0: Tables, u0: Uses, t1: Tables, u1: Uses, root: nat, sz: nat, sz': nat, perm: Pte)
    requires Grew(t0, u0, t1, u1, root, Up(sz), Up(sz'), perm) && Up(sz') <= TRAPFRAME && sz <= sz'
             && IsRoot(t0, u0, root)
    ensures forall v: nat :: Up(sz) <= v < Up(sz') ==> Lookup(t1, root, v).v && SameFlags(Lookup(t1, root, v), perm)
    ensures forall v: nat :: v < Up(sz) ==> Lookup(t1, root, v) == Lookup(t0, root, v)
  {
    hide Lookup;
    hide IsRoot;
    forall v: nat | Up(sz) <= v < Up(sz')
      ensures Lookup(t1, root, v).v && SameFlags(Lookup(t1, root, v), perm)
    {
      assert GrownAt(t0, u0, t1, root, v, perm);
    }
  }

  /** The headers before k are loaded, and took no more memory than they need. */
  ghost predicate Loaded(segs: seq<Segment>, k: nat, sz: nat, left: nat, free: nat)
    requires k <= |segs|
  {
    sz == ImageEnd(segs[..k]) && Loadable(segs[..k]) && left + PERPAGE * Up(sz) >= free
  }

  /** Header k is no good. */
  lemma BadHeader(segs: seq<Segment>, k: nat)
    requires k < |segs| && !WellFormed(segs[k])
    ensures !Loadable(segs)
  {
  }

  lemma ImageEndNext(segs: seq<Segment>, k: nat)
    requires k < |segs|
    ensures var end, newsz := ImageEnd(segs[..k]), segs[k].vaddr + segs[k].memsz;
            ImageEnd(segs[..k + 1]) == if newsz < end then end else newsz
  {
    assert segs[..k + 1][..k] == segs[..k];
  }

  /** uvmalloc fails for header k. */
  lemma NoRoom(segs: seq<Segment>, k: nat, sz: nat, left: nat, free: nat)
    requires k < |segs| && Loaded(segs, k, sz, left, free)
    requires var newsz := segs[k].vaddr + segs[k].memsz;
             newsz >= sz && (newsz == 0 || left < PERPAGE * (Up(newsz) - Up(sz)))
    ensures !Loadable(segs) || free < PERPAGE * Up(ImageEnd(segs))
  {
    hide ImageEnd;
    hide WellFormed;
    ImageEndGrows(segs, k);
    ImageEndGrows(segs, k + 1);
    ImageEndNext(segs, k);
  }

  /** uvmalloc succeeds for header k. */
  lemma LoadedMore(segs: seq<Segment>, k: nat, sz: nat, sz': nat, left: nat, left': nat, free: nat)
    requires k < |segs| && Loaded(segs, k, sz, left, free) && WellFormed(segs[k]) && sz' != 0
    requires var newsz := segs[k].vaddr + segs[k].memsz; sz' == (if newsz < sz then sz else newsz)
    requires left' + PERPAGE * (Up(sz') - Up(sz)) >= left
    ensures Loaded(segs, k + 1, sz', left', free)
  {
    assert segs[..k + 1][..k] == segs[..k];
  }

  /** The loop over the program headers. */
  method LoadAll(vm: Vm, root: nat, segs: seq<Segment>, ghost t0: Tables, ghost u0: Uses, ghost d0: Contents)
      returns (ok: bool, sz: nat)
    requires Building(vm, root, 0, t0, u0, d0)
    modifies vm
    ensures Building(vm, root, sz, t0, u0, d0) && (ok ==> AllUser(vm.tables, root, sz))
    ensures ok ==> Loaded(segs, |segs|, sz, |vm.free|, |old(vm.free)|) && Shows(vm.tables, vm.data, root, sz, segs)
                   && Protected(vm.tables, root, segs)
    ensures !ok ==> !Loadable(segs) || |old(vm.free)| < PERPAGE * Up(ImageEnd(segs))
    ensures TopSame(old(vm.tables), vm.tables, root)
  {
    hide Building;
    hide AllUser;
    hide Shows;
    hide Resized;
    hide Written;
    hide Loaded;
    hide Loadable;
    hide TopSame;
    hide Protected;
    sz := 0;
    NoneYet(vm.tables, vm.data, root);
    var k := 0;
    LoadedNone(segs, |vm.free|);
    TopSameRefl(vm.tables, root);
    while k < |segs|
      invariant 0 <= k <= |segs| && Building(vm, root, sz, t0, u0, d0) && AllUser(vm.tables, root, sz)
      invariant Loaded(segs, k, sz, |vm.free|, |old(vm.free)|) && Shows(vm.tables, vm.data, root, sz, segs[..k])
      invariant TopSame(old(vm.tables), vm.tables, root) && Protected(vm.tables, root, segs[..k])
    {
      ghost var t1, d1, left := vm.tables, vm.data, |vm.free|;
      var ph := segs[k];
      if ph.memsz < ph.filesz || Sum64(ph) < ph.vaddr || ph.vaddr % PGSIZE != 0 {
        BadHeader(segs, k);
        return false, sz;
      }
      var sz1 := Extend(vm, root, sz, Sum64(ph), Pte(false, true, ph.writable, ph.executable, true, 0), t0, u0, d0);
      TopSameTrans(old(vm.tables), t1, vm.tables, root);
      if sz1 == 0 {
        NoRoom(segs, k, sz, left, |old(vm.free)|);
        return false, sz;
      }
      ghost var sz0 := sz;
      sz := sz1;
      ghost var t2, d2 := vm.tables, vm.data;
      var loaded := LoadOne(vm, root, sz, ph, t0, u0, d0);
      if !loaded {
        BadHeader(segs, k);
        return false, sz;
      }
      LoadedMore(segs, k, sz0, sz, left, |vm.free|, |old(vm.free)|);
      ShowsNext(t1, d1, t2, d2, vm.tables, vm.data, root, segs, k, sz0, sz, left, |vm.free|, |old(vm.free)|,
                Access(true, ph.writable, ph.executable));
      ProtectedNext(t1, vm.tables, root, segs, k, sz0, sz, left, |vm.free|, |old(vm.free)|);
      k := k + 1;
    }
    assert segs[..k] == segs;
    ok := true;
  }

  lemma TopSameRefl(t: Tables, root: nat)
    ensures TopSame(t, t, root)
  {
  }

  lemma LoadedNone(segs: seq<Segment>, free: nat)
    ensures Loaded(segs, 0, 0, free, free)
  {
  }

  lemma ShowsNext(t0: Tables, d0: Contents, t1: Tables, d1: Contents, t2: Tables, d2: Contents, root: nat,
                  segs: seq<Segment>, k: nat,
                  sz: nat, sz': nat, left: nat, left': nat, free: nat, access: Access)
    requires k < |segs| && WellFormed(segs[k]) && Up(sz') <= TRAPFRAME
    requires Loaded(segs, k, sz, left, free) && Loaded(segs, k + 1, sz', left', free)
    requires Shows(t0, d0, root, sz, segs[..k]) && Resized(t0, d0, t1, d1, root, sz, sz', access)
    requires Written(t1, d1, t2, d2, root, sz', segs[k].vaddr, segs[k].file[..Loads(segs[k])], Loads(segs[k]))
    ensures Shows(t2, d2, root, sz', segs[..k + 1])
  {
    hide Shows;
    hide Resized;
    hide Written;
    hide ImageEnd;
    forall j | 0 <= j < k
      ensures WellFormed(segs[j])
    {
      assert segs[j] == segs[..k][j];
    }
    ShowsMore(t0, d0, t1, d1, t2, d2, root, segs, k, access);
  }

  lemma ProtectedNext(t0: Tables, t1: Tables, root: nat, segs: seq<Segment>, k: nat, sz: nat, sz': nat, left: nat,
                      left': nat, free: nat)
    requires k < |segs| && Loaded(segs, k, sz, left, free) && Loaded(segs, k + 1, sz', left', free)
    requires Protected(t0, root, segs[..k])
    requires forall v: nat :: v < Up(sz) ==> Lookup(t1, root, v) == Lookup(t0, root, v)
    requires forall v: nat :: Up(sz) <= v < Up(sz') ==>
               Lookup(t1, root, v).v
               && SameFlags(Lookup(t1, root, v), Pte(false, true, segs[k].writable, segs[k].executable, true, 0))
    ensures Protected(t1, root, segs[..k + 1])
  {
    hide Protected;
    hide Lookup;
    hide ImageEnd;
    hide Loadable;
    ProtectedMore(t0, t1, root, segs, k);
  }

  lemma NoneYet(t: Tables, d: Contents, root: nat)
    ensures AllUser(t, root, 0) && Shows(t, d, root, 0, []) && Protected(t, root, [])
  {
  }

  method LoadOne(vm: Vm, root: nat, sz: nat, ph: Segment, ghost t0: Tables, ghost u0: Uses, ghost d0: Contents)
      returns (ok: bool)
    requires Building(vm, root, sz, t0, u0, d0) && AllUser(vm.tables, root, sz) && ph.vaddr + Loads(ph) <= sz
             && ph.vaddr % PGSIZE == 0
    modifies vm
    ensures Building(vm, root, sz, t0, u0, d0) && AllUser(vm.tables, root, sz)
    ensures ok ==> Loads(ph) <= |ph.file|
                   && Written(old(vm.tables), old(vm.data), vm.tables, vm.data, root, sz, ph.vaddr,
                              ph.file[..Loads(ph)], Loads(ph))
    ensures (Loads(ph) <= |ph.file| ==> ok) && vm.free == old(vm.free) && vm.tables == old(vm.tables)
    ensures Up(sz) <= TRAPFRAME
  {
    hide TablesOk;
    hide FreeOk;
    hide LeavesOk;
    hide Lookup;
    hide IsRoot;
    hide TopOk;
    hide Only;
    hide OthersSee;
    hide DataOk;
    hide Bounded;
    hide AllUser;
    hide Written;
    ghost var t1, u1, d1 := vm.tables, vm.use, vm.data;
    var panic;
    ok, panic := Loadseg(vm, root, ph.vaddr, sz, ph.file, Loads(ph));
    OthersSeeTrans(t0, u0, d0, t1, u1, d1, vm.tables, vm.data, root);
  }

  const USERSTACK: nat := 1

  /** Two pages more, the lower one out of the user's reach. */
  method Stack(vm: Vm, root: nat, sz: nat, ghost t0: Tables, ghost u0: Uses, ghost d0: Contents) returns (sz': nat)
    requires Building(vm, root, sz, t0, u0, d0) && AllUser(vm.tables, root, sz)
    modifies vm
    ensures Building(vm, root, if sz' == 0 then Up(sz) * PGSIZE else sz', t0, u0, d0)
            && TopSame(old(vm.tables), vm.tables, root)
    ensures sz' == 0 ==> |old(vm.free)| < PERPAGE * (USERSTACK + 1)
    ensures sz' != 0 ==>
              && sz' == (Up(sz) + USERSTACK + 1) * PGSIZE
              && (forall s: nat :: PageView(vm.tables, vm.data, root, s, Up(sz)).None?
                                   && Rights(vm.tables, root, s, Up(sz)).None?)
              && (forall v: nat :: Up(sz) < v <= Up(sz) + USERSTACK ==> MappedRw(vm.tables, root, v))
              && StackAbove(vm.tables, root, Up(sz))
              && (forall v: nat :: v < Up(sz) ==> Lookup(vm.tables, root, v) == Lookup(old(vm.tables), root, v))
              && (forall v: nat :: v < Up(sz) ==>
                    PageView(vm.tables, vm.data, root, sz', v) == PageView(old(vm.tables), old(vm.data), root, sz, v))
  {
    hide TablesOk;
    hide FreeOk;
    hide LeavesOk;
    hide Lookup;
    hide IsRoot;
    hide TopOk;
    hide Only;
    hide OthersSee;
    hide DataOk;
    hide AllUser;
    hide PageView;
    hide Rights;
    hide Resized;
    hide StackAbove;
    hide TopSame;
    ghost var t, d := vm.tables, vm.data;
    Rounded(sz);
    RoundedUser(vm.tables, root, sz);
    var base := Up(sz) * PGSIZE;
    sz' := Extend(vm, root, base, base + (USERSTACK + 1) * PGSIZE, UserRw, t0, u0, d0);
    if sz' == 0 {
      return;
    }
    ghost var t1, u1, d1 := vm.tables, vm.use, vm.data;
    var panic := Uvmclear(vm, root, Up(sz));
    Cleared(t1, vm.tables, u1, d1, root, sz', Up(sz));
    TopSameTrans(t, t1, vm.tables, root);
    StackView(t, d, t1, vm.tables, u1, d1, root, sz, sz');
    OthersSeeTrans(t0, u0, d0, t1, u1, d1, vm.tables, vm.data, root);
    OnlyTrans(t0, u0, t1, u1, vm.tables, vm.use, root);
  }

  /** The stack can be read and written, and not run. */
  ghost predicate StackAbove(t: Tables, root: nat, guard: nat) {
    forall v: nat :: guard < v <= guard + USERSTACK ==> Lookup(t, root, v).v && SameFlags(Lookup(t, root, v), UserRw)
  }

  lemma Rounded(sz: nat)
    ensures Up(Up(sz) * PGSIZE) == Up(sz) && sz <= Up(sz) * PGSIZE
    ensures Up(Up(sz) * PGSIZE + (USERSTACK + 1) * PGSIZE) == Up(sz) + USERSTACK + 1
  {
  }

  lemma RoundedUser(t: Tables, root: nat, sz: nat)
    requires AllUser(t, root, sz) && Bounded(t, root, sz)
    ensures AllUser(t, root, Up(sz) * PGSIZE) && Bounded(t, root, Up(sz) * PGSIZE)
  {
    hide Lookup;
    Rounded(sz);
  }

  /** The pages of the image stay; the pages above the cleared one are there. */
  lemma StackView(t0: Tables, d0: Contents, t1: Tables, t2: Tables, u: Uses, d1: Contents, root: nat, sz: nat, sz': nat)
    requires sz' == (Up(sz) + USERSTACK + 1) * PGSIZE && Up(sz) + USERSTACK + 1 <= TRAPFRAME && IsRoot(t1, u, root)
    requires Resized(t0, d0, t1, d1, root, Up(sz) * PGSIZE, sz', ReadWrite)
    requires forall v: nat :: Up(sz) <= v < Up(sz') ==> Lookup(t1, root, v).v && SameFlags(Lookup(t1, root, v), UserRw)
    requires PutAt(t1, u, t2, u, root, Up(sz), Lookup(t1, root, Up(sz)).(u := false))
    ensures forall v: nat :: Up(sz) < v <= Up(sz) + USERSTACK ==> MappedRw(t2, root, v)
    ensures StackAbove(t2, root, Up(sz)) && forall v: nat :: v < Up(sz) ==> Lookup(t2, root, v) == Lookup(t1, root, v)
    ensures forall v: nat :: v < Up(sz) ==> PageView(t2, d1, root, sz', v) == PageView(t0, d0, root, sz, v)
  {
    hide Lookup;
    hide IsRoot;
    Rounded(sz);
    forall v: nat | v < Up(sz)
      ensures PageView(t2, d1, root, sz', v) == PageView(t0, d0, root, sz, v)
    {
      UpIs(sz, v);
      UpIs(sz', v);
      assert PageView(t1, d1, root, sz', v) == PageView(t0, d0, root, Up(sz) * PGSIZE, v);
    }
  }

  /** uvmclear shows to no other space. */
  lemma Cleared(t0: Tables, t1: Tables, u: Uses, d: Contents, root: nat, sz: nat, v: nat)
    requires IsRoot(t0, u, root) && v < Up(sz) && Up(sz) <= TRAPFRAME && Bounded(t0, root, sz)
    requires PutAt(t0, u, t1, u, root, v, Lookup(t0, root, v).(u := false))
    ensures Bounded(t1, root, sz) && Only(t0, u, t1, u, root) && OthersSee(t0, u, d, t1, d, root)
            && TopSame(t0, t1, root)
  {
    hide Lookup;
    hide IsRoot;
  }

  /** kexec's argument vector: the strings, each below the last, then the array
      of pointers to them. It fails exactly when it does not fit above `low`. The
      caller, sys_exec, leaves room for the null pointer. */
  method Push(vm: Vm, root: nat, sz: nat, argv: seq<seq<Byte>>, low: nat, ghost t0: Tables, ghost u0: Uses,
              ghost d0: Contents) returns (ok: bool, sp: nat)
    requires Building(vm, root, sz, t0, u0, d0) && low <= sz && |argv| < MAXARG
             && RangeRw(vm.tables, root, low, sz - low)
    modifies vm
    ensures Building(vm, root, sz, t0, u0, d0) && vm.tables == old(vm.tables)
    ensures ok <==> ArgvSp(sz, argv) >= low
    ensures SameBelow(old(vm.tables), old(vm.data), vm.tables, vm.data, root, sz, low)
    ensures ok ==> sp == ArgvSp(sz, argv) && ArgvAt(vm.tables, vm.data, root, sz, argv)
  {
    hide Building;
    hide View;
    hide Written;
    hide StringAt;
    hide RangeRw;
    hide SameBelow;
    hide ArgvAt;
    hide Pointers;
    ghost var t1, d1 := vm.tables, vm.data;
    SameBelowRefl(t1, d1, root, sz, low);
    sp := sz;
    var ustack: seq<nat> := [];
    var argc := 0;
    while argc < |argv|
      invariant 0 <= argc <= |argv| && low <= sp == ArgSp(sz, argv, argc) && |ustack| == argc
      invariant Building(vm, root, sz, t0, u0, d0) && vm.tables == t1 && SameBelow(t1, d1, t1, vm.data, root, sz, low)
      invariant forall j: nat :: j < argc ==>
                  StringAt(t1, vm.data, root, sz, argv, j) && ustack[j] == ArgSp(sz, argv, j + 1)
    {
      ArgSpFalls(sz, argv, argc + 1, |argv|);
      var s := argv[argc] + [0];
      if Lowered(sp, |s|) < low {
        return false, sp;
      }
      sp := Lowered(sp, |s|);
      ghost var d2 := vm.data;
      PushOne(vm, root, sz, sp, s, low, t1, d1, t0, u0, d0);
      StringsMore(t1, d2, t1, vm.data, root, sz, argv, argc);
      ustack := ustack + [sp];
      argc := argc + 1;
    }
    var ptrs := Pointers(ustack + [0]);
    if Lowered(sp, |ptrs|) < low {
      return false, sp;
    }
    sp := Lowered(sp, |ptrs|);
    ghost var d3 := vm.data;
    PushOne(vm, root, sz, sp, ptrs, low, t1, d1, t0, u0, d0);
    PointersMore(t1, d3, t1, vm.data, root, sz, argv, ustack);
    ok := true;
  }

  /** One copyout to the new stack, whose pages are there: it does not fail. */
  method PushOne(vm: Vm, root: nat, sz: nat, sp: nat, s: seq<Byte>, low: nat, ghost t1: Tables, ghost d1: Contents,
                 ghost t0: Tables, ghost u0: Uses, ghost d0: Contents)
    requires Building(vm, root, sz, t0, u0, d0) && low <= sp && sp + |s| <= sz
             && RangeRw(vm.tables, root, low, sz - low)
    requires SameBelow(t1, d1, vm.tables, vm.data, root, sz, low)
    modifies vm
    ensures Building(vm, root, sz, t0, u0, d0) && vm.tables == old(vm.tables)
    ensures SameBelow(t1, d1, vm.tables, vm.data, root, sz, low)
    ensures Written(old(vm.tables), old(vm.data), vm.tables, vm.data, root, sz, sp, s, |s|)
  {
    hide TablesOk;
    hide FreeOk;
    hide LeavesOk;
    hide Lookup;
    hide IsRoot;
    hide TopOk;
    hide Only;
    hide OthersSee;
    hide DataOk;
    hide Bounded;
    hide View;
    hide Written;
    hide Writable;
    hide SameBelow;
    hide RangeRw;
    ghost var t2, u2, d2 := vm.tables, vm.use, vm.data;
    RangeRwPart(t2, root, low, sz - low, sp, |s|);
    var copied, done := Copyout(vm, root, sz, sp, s);
    WrittenBelow(t1, d1, t2, d2, vm.tables, vm.data, root, sz, sp, s, done, low);
    OthersSeeTrans(t0, u0, d0, t2, u2, d2, vm.tables, vm.data, root);
    OnlyTrans(t0, u0, t2, u2, vm.tables, vm.use, root);
  }

  lemma RangeRwPart(t: Tables, root: nat, a: nat, n: nat, b: nat, m: nat)
    requires RangeRw(t, root, a, n) && a <= b && b + m <= a + n
    ensures RangeRw(t, root, b, m)
  {
    hide MappedRw;
  }

  lemma SameBelowRefl(t: Tables, d: Contents, root: nat, sz: nat, low: nat)
    ensures SameBelow(t, d, t, d, root, sz, low)
  {
  }

  /** The user sees the same at every address below `low`. */
  ghost predicate SameBelow(t0: Tables, d0: Contents, t1: Tables, d1: Contents, root: nat, sz: nat, low: nat) {
    forall a: nat :: a < low ==> View(t1, d1, root, sz, a) == View(t0, d0, root, sz, a)
  }

  lemma WrittenBelow(t0: Tables, d0: Contents, t1: Tables, d1: Contents, t2: Tables, d2: Contents, root: nat, sz: nat,
                     sp: nat, src: seq<Byte>, n: nat, low: nat)
    requires SameBelow(t0, d0, t1, d1, root, sz, low) && n <= |src| && Written(t1, d1, t2, d2, root, sz, sp, src, n)
             && low <= sp
    ensures SameBelow(t0, d0, t2, d2, root, sz, low)
  {
    hide View;
  }

  /** Pages that were free or the old image's are free or the new one's; no other
      page changed its use. */
  ghost predicate Replaced(u0: Uses, u1: Uses, root: nat, root': nat) {
    && u1.Keys == u0.Keys
    && forall p :: p in u0 ==>
         if u0[p].Free? || Ours(u0[p], root) then u1[p].Free? || Ours(u1[p], root') else u1[p] == u0[p]
  }

  /** Nothing in a page is within the user's reach. */
  ghost predicate Hidden(t: Tables, d: Contents, root: nat, sz: nat, v: nat) {
    forall a: nat :: a / PGSIZE == v ==> View(t, d, root, sz, a).None?
  }

  lemma GuardStays(t0: Tables, d0: Contents, t1: Tables, d1: Contents, root: nat, sz: nat, v: nat)
    requires PageView(t0, d0, root, sz, v).None? && SameBelow(t0, d0, t1, d1, root, sz, (v + 1) * PGSIZE)
    ensures Hidden(t1, d1, root, sz, v)
  {
    hide PageView;
    forall a: nat | a / PGSIZE == v
      ensures View(t1, d1, root, sz, a).None?
    {
      assert a < (v + 1) * PGSIZE;
      assert View(t0, d0, root, sz, a).None?;
    }
  }

  /** What a process finds when exec has succeeded: the program's image, a page
      out of reach, and its argument vector in the stack above that page. */
  ghost predicate Started(t: Tables, d: Contents, root: nat, sz: nat, segs: seq<Segment>, argv: seq<seq<Byte>>) {
    && sz == (Up(ImageEnd(segs)) + USERSTACK + 1) * PGSIZE && Shows(t, d, root, sz, segs)
    && Protected(t, root, segs) && StackAbove(t, root, Up(ImageEnd(segs)))
    && Hidden(t, d, root, sz, Up(ImageEnd(segs)))
    && ArgvSp(sz, argv) >= sz - USERSTACK * PGSIZE && ArgvAt(t, d, root, sz, argv)
  }

  /** The headers can be loaded and the arguments fit on the stack. */
  ghost predicate Startable(segs: seq<Segment>, argv: seq<seq<Byte>>) {
    Loadable(segs) && ArgvSp((Up(ImageEnd(segs)) + USERSTACK + 1) * PGSIZE, argv) >= (Up(ImageEnd(segs)) + 1) * PGSIZE
  }

  /** kexec's memory: either the new image takes the old one's place, or
      everything is as it was, which happens only for headers or arguments that
      are no good and for want of memory. An image that would reach the trapframe
      is among the latter, in a machine with fewer pages than that. */
  method Kexec(vm: Vm, root: nat, sz: nat, trampoline: nat, trapframe: nat, segs: seq<Segment>, argv: seq<seq<Byte>>)
    returns (ok: bool, root': nat, sz': nat, sp: nat)
    requires Space(vm, root, sz) && |argv| < MAXARG && |vm.use| < TRAPFRAME
    modifies vm
    ensures !ok ==> vm.Valid() && vm.use == old(vm.use) && SameMap(old(vm.tables), old(vm.use), vm.tables, vm.use)
    ensures !ok ==> forall r: nat, s: nat, v: nat :: IsRoot(old(vm.tables), old(vm.use), r) ==>
              PageView(vm.tables, vm.data, r, s, v) == PageView(old(vm.tables), old(vm.data), r, s, v)
    ensures ok ==> Space(vm, root', sz') && !IsRoot(old(vm.tables), old(vm.use), root')
                   && !IsRoot(vm.tables, vm.use, root)
    ensures ok ==> Replaced(old(vm.use), vm.use, root, root')
    ensures ok ==> Started(vm.tables, vm.data, root', sz', segs, argv) && sp == ArgvSp(sz', argv)
                   && Startable(segs, argv)
    ensures ok ==> Lookup(vm.tables, root', TRAPFRAME) == KernelRw.(v := true, ppn := trapframe)
                   && EntryAt(vm.tables, root', trampoline)
    ensures ok ==> OthersStay(old(vm.tables), old(vm.use), old(vm.data), vm.tables, vm.use, vm.data, root, root')
    ensures !ok ==> !Startable(segs, argv) || |old(vm.free)| < PERSPACE + PERPAGE * (Up(ImageEnd(segs)) + USERSTACK + 1)
  {
    hide TablesOk;
    hide FreeOk;
    hide LeavesOk;
    hide Lookup;
    hide IsRoot;
    hide TopOk;
    hide Only;
    hide OthersSee;
    hide OthersMap;
    hide DataOk;
    hide Bounded;
    hide PageView;
    hide SameMap;
    hide Gone;
    hide Fresh;
    hide Started;
    hide Startable;
    hide TopSame;
    hide OthersStay;
    ok, root', sz', sp := false, 0, 0, 0;
    ghost var t0, u0, d0 := vm.tables, vm.use, vm.data;
    var res := ProcPagetable(vm, trampoline, trapframe);
    if res.None? {
      SameViews(t0, u0, vm.tables, vm.use, d0);
      return;
    }
    root' := res.value;
    FreshStart(t0, u0, d0, vm.tables, vm.use, root', trampoline, trapframe);
    ghost var tf := vm.tables;
    ok, sz', sp := Image(vm, root', segs, argv, t0, u0, d0);
    ghost var t1, u1, d1 := vm.tables, vm.use, vm.data;
    if !ok {
      var panic := FreePagetable(vm, root', sz');
      NoTrace(t0, u0, t1, u1, vm.tables, vm.use, root');
      SameTop(t0, u0, vm.tables, vm.use);
      MapViews(t0, u0, t1, u1, vm.tables, vm.use, d0, vm.data, root');
      return;
    }
    OldStays(t0, u0, t1, u1, root, root', sz);
    NoneOurs(t0, u0, root');
    var panic := FreePagetable(vm, root, sz);
    Commit(t0, u0, t1, u1, vm.tables, vm.use, d1, root, root', sz');
    FrameStays(tf, t1, u1, vm.tables, vm.use, root, root', trampoline, trapframe);
    RestStays(t0, u0, d0, t1, u1, vm.tables, vm.use, d1, root, root');
    SameStart(t1, vm.tables, d1, root', sz', segs, argv);
  }

  lemma SameStart(t0: Tables, t1: Tables, d: Contents, root: nat, sz: nat, segs: seq<Segment>, argv: seq<seq<Byte>>)
    requires Started(t0, d, root, sz, segs, argv)
             && forall a: nat :: View(t1, d, root, sz, a) == View(t0, d, root, sz, a)
    requires sz <= TRAPFRAME * PGSIZE && forall v: nat :: v < NVPN ==> Lookup(t1, root, v) == Lookup(t0, root, v)
    ensures Started(t1, d, root, sz, segs, argv)
  {
    hide View;
    hide ArgvAt;
    hide Lookup;
    hide Protected;
    hide ImageEnd;
    ProtectedStays(t0, t1, root, segs);
    SameArgv(t0, d, t1, d, root, sz, argv);
  }

  /** Everything between proc_pagetable and the commit. */
  method Image(vm: Vm, root: nat, segs: seq<Segment>, argv: seq<seq<Byte>>, ghost t0: Tables, ghost u0: Uses,
               ghost d0: Contents)
    returns (ok: bool, sz: nat, sp: nat)
    requires Building(vm, root, 0, t0, u0, d0) && |argv| < MAXARG
    modifies vm
    ensures Building(vm, root, sz, t0, u0, d0)
    ensures ok ==> Started(vm.tables, vm.data, root, sz, segs, argv) && sp == ArgvSp(sz, argv) && Startable(segs, argv)
    ensures !ok ==> !Startable(segs, argv) || |old(vm.free)| < PERPAGE * (Up(ImageEnd(segs)) + USERSTACK + 1)
    ensures TopSame(old(vm.tables), vm.tables, root)
  {
    hide TopSame;
    hide Building;
    hide AllUser;
    hide PageView;
    hide Rights;
    hide MappedRw;
    hide RangeRw;
    hide SameBelow;
    hide Hidden;
    hide Shows;
    hide ArgvAt;
    hide Loadable;
    hide Protected;
    hide StackAbove;
    sp := 0;
    ok, sz := LoadAll(vm, root, segs, t0, u0, d0);
    if !ok {
      return;
    }
    assert segs[..|segs|] == segs;
    ghost var t, d := vm.tables, vm.data;
    var sz1 := Stack(vm, root, sz, t0, u0, d0);
    TopSameTrans(old(vm.tables), t, vm.tables, root);
    ghost var end := sz;
    if sz1 == 0 {
      return false, Up(sz) * PGSIZE, 0;
    }
    sz := sz1;
    ghost var t1, d1 := vm.tables, vm.data;
    StackRw(t1, root, end, sz);
    ProtectedStays(t, t1, root, segs);
    ok, sp := Push(vm, root, sz, argv, sz - USERSTACK * PGSIZE, t0, u0, d0);
    assert sz - USERSTACK * PGSIZE == (Up(end) + 1) * PGSIZE;
    GuardStays(t1, d1, vm.tables, vm.data, root, sz, Up(end));
    ImageStays(t, d, t1, d1, vm.tables, vm.data, root, segs, sz);
  }

  lemma StackRw(t: Tables, root: nat, end: nat, sz: nat)
    requires sz == (Up(end) + USERSTACK + 1) * PGSIZE
    requires forall v: nat :: Up(end) < v <= Up(end) + USERSTACK ==> MappedRw(t, root, v)
    ensures RangeRw(t, root, sz - USERSTACK * PGSIZE, USERSTACK * PGSIZE)
  {
    hide MappedRw;
    forall b: nat | sz - USERSTACK * PGSIZE <= b < sz
      ensures MappedRw(t, root, b / PGSIZE)
    {
      assert Up(end) < b / PGSIZE <= Up(end) + USERSTACK;
    }
  }

  /** The stack is above the image. */
  lemma ImageStays(t0: Tables, d0: Contents, t1: Tables, d1: Contents, t2: Tables, d2: Contents, root: nat,
                   segs: seq<Segment>, sz: nat)
    requires Shows(t0, d0, root, ImageEnd(segs), segs)
             && SameBelow(t1, d1, t2, d2, root, sz, (Up(ImageEnd(segs)) + 1) * PGSIZE)
    requires forall v: nat :: v < Up(ImageEnd(segs)) ==>
               PageView(t1, d1, root, sz, v) == PageView(t0, d0, root, ImageEnd(segs), v)
    ensures Shows(t2, d2, root, sz, segs)
  {
    hide PageView;
    hide ImageEnd;
    hide ImageByte;
    var end := ImageEnd(segs);
    forall a: nat | a < Up(end) * PGSIZE
      ensures View(t2, d2, root, sz, a) == Some(ImageByte(segs, a))
    {
      assert View(t1, d1, root, sz, a) == View(t0, d0, root, end, a) by {
        assert a / PGSIZE < Up(end);
      }
    }
  }

  /** Every process but the one that calls exec is mapped and sees what it did. */
  ghost predicate OthersStay(t0: Tables, u0: Uses, d0: Contents, t1: Tables, u1: Uses, d1: Contents, root: nat,
                             root': nat) {
    && (forall r: nat :: r != root && IsRoot(t0, u0, r) ==> r != root' && IsRoot(t1, u1, r))
    && (forall r: nat :: r != root' && IsRoot(t1, u1, r) ==> r != root && IsRoot(t0, u0, r))
    && (forall r: nat, v: nat :: r != root && IsRoot(t0, u0, r) && v < NVPN ==> Lookup(t1, r, v) == Lookup(t0, r, v))
    && (forall r: nat, s: nat, v: nat :: r != root && IsRoot(t0, u0, r) ==>
          PageView(t1, d1, r, s, v) == PageView(t0, d0, r, s, v))
  }

  lemma RestStays(t0: Tables, u0: Uses, d0: Contents, t1: Tables, u1: Uses, t2: Tables, u2: Uses, d: Contents,
                  root: nat, root': nat)
    requires Only(t0, u0, t1, u1, root') && OthersSee(t0, u0, d0, t1, d, root') && !IsRoot(t0, u0, root')
             && root != root'
    requires OthersMap(t1, u1, t2, u2, root) && !IsRoot(t2, u2, root)
    ensures OthersStay(t0, u0, d0, t2, u2, d, root, root')
  {
    hide Lookup;
    hide IsRoot;
    forall r: nat, s: nat, v: nat | r != root && IsRoot(t0, u0, r)
      ensures PageView(t2, d, r, s, v) == PageView(t0, d0, r, s, v)
    {
      assert PageView(t2, d, r, s, v) == PageView(t1, d, r, s, v);
    }
  }

  lemma FrameStays(t0: Tables, t1: Tables, u1: Uses, t2: Tables, u2: Uses, root: nat, root': nat, trampoline: nat,
                   trapframe: nat)
    requires Fresh(t0, root', trampoline, trapframe) && TopSame(t0, t1, root') && OthersMap(t1, u1, t2, u2, root)
             && root' != root && IsRoot(t1, u1, root')
    ensures Lookup(t2, root', TRAPFRAME) == KernelRw.(v := true, ppn := trapframe) && EntryAt(t2, root', trampoline)
  {
    hide Lookup;
    hide IsRoot;
  }

  /** The old image is still there while the new one is built. */
  lemma OldStays(t0: Tables, u0: Uses, t1: Tables, u1: Uses, root: nat, root': nat, sz: nat)
    requires Only(t0, u0, t1, u1, root') && IsRoot(t0, u0, root) && !IsRoot(t0, u0, root') && Bounded(t0, root, sz)
             && Up(sz) <= TRAPFRAME
    ensures root != root' && IsRoot(t1, u1, root) && Bounded(t1, root, sz)
  {
    hide Lookup;
    hide IsRoot;
  }

  lemma Commit(t0: Tables, u0: Uses, t1: Tables, u1: Uses, t2: Tables, u2: Uses, d: Contents, root: nat, root': nat,
               sz: nat)
    requires Only(t0, u0, t1, u1, root') && root != root' && Gone(u1, u2, root) && OthersMap(t1, u1, t2, u2, root)
             && !IsRoot(t2, u2, root)
    requires IsRoot(t1, u1, root') && Bounded(t1, root', sz) && TopOk(t1, u1) && Up(sz) <= TRAPFRAME
    requires forall p :: p in u0 ==> !Ours(u0[p], root')
    ensures Replaced(u0, u2, root, root') && IsRoot(t2, u2, root') && Bounded(t2, root', sz) && TopOk(t2, u2)
    ensures forall a: nat :: View(t2, d, root', sz, a) == View(t1, d, root', sz, a)
    ensures forall v: nat :: v < NVPN ==> Lookup(t2, root', v) == Lookup(t1, root', v)
  {
    hide Lookup;
    hide IsRoot;
    forall a: nat
      ensures View(t2, d, root', sz, a) == View(t1, d, root', sz, a)
    {
      assert PageView(t2, d, root', sz, a / PGSIZE) == PageView(t1, d, root', sz, a / PGSIZE);
    }
  }
}
