/** User memory through a page table (copyout, copyin, vmfault and uvmclear in
    kernel/vm.c): the bytes a process sees at each virtual address, and what
    each operation does to them. */
module UserMemory {
  import opened Base
  import opened PageTable
  import opened Vm

  type Contents = map<nat, Page>

  /** What the kernel can reach for the user in one virtual page. A page below
      sz that is not mapped yet reads as zeros. */
  ghost function PageView(tables: Tables, data: Contents, root: nat, sz: nat, v: nat): (r: Option<Page>) {
    var e := Lookup(tables, root, v);
    if v >= NVPN then None
    else if e.v then (if e.u && e.ppn in data then Some(data[e.ppn]) else None)
    else if v * PGSIZE < sz then Some(ZeroPage()) else None
  }

  ghost function ByteOf(p: Option<Page>, o: nat): (r: Option<Byte>)
    requires o < PGSIZE
  {
    if p.None? then None else Some(p.value[o])
  }

  /** The byte the user sees at virtual address a, if any. */
  ghost function View(tables: Tables, data: Contents, root: nat, sz: nat, a: nat): (r: Option<Byte>) {
    ByteOf(PageView(tables, data, root, sz, a / PGSIZE), a % PGSIZE)
  }

  datatype Access = Access(r: bool, w: bool, x: bool)

  const ReadWrite := Access(true, true, false)

  /** What the user may do in page v, now or after a page fault. */
  ghost function Rights(tables: Tables, root: nat, sz: nat, v: nat): (r: Option<Access>) {
    var e := Lookup(tables, root, v);
    if v >= NVPN then None
    else if e.v then (if e.u then Some(Access(e.r, e.w, e.x)) else None)
    else if v * PGSIZE < sz then Some(ReadWrite) else None
  }

  ghost predicate WritablePage(tables: Tables, root: nat, sz: nat, v: nat) {
    var a := Rights(tables, root, sz, v);
    a.Some? && a.value.w
  }

  ghost predicate Writable(tables: Tables, root: nat, sz: nat, a: nat) {
    WritablePage(tables, root, sz, a / PGSIZE)
  }

  /** The trampoline and trapframe pages are not for the user. */
  ghost predicate TopOk(tables: Tables, use: Uses) {
    forall r: nat, v: nat :: IsRoot(tables, use, r) && TRAPFRAME <= v < NVPN ==> !Lookup(tables, r, v).u
  }

  /** No address space but `root` sees a difference. */
  ghost predicate OthersSee(t0: Tables, u0: Uses, d0: Contents, t1: Tables, d1: Contents, root: nat) {
    forall r: nat, s: nat, v: nat :: r != root && IsRoot(t0, u0, r) ==>
        PageView(t1, d1, r, s, v) == PageView(t0, d0, r, s, v)
  }

  /** Nor does `root`, whose size is sz. */
  ghost predicate AllSee(t0: Tables, u0: Uses, d0: Contents, t1: Tables, d1: Contents, root: nat, sz: nat) {
    && OthersSee(t0, u0, d0, t1, d1, root)
    && (forall v: nat :: PageView(t1, d1, root, sz, v) == PageView(t0, d0, root, sz, v))
    && (forall v: nat :: Rights(t1, root, sz, v) == Rights(t0, root, sz, v))
  }

  /** Nothing is mapped between the end of the space and the trapframe. */
  ghost predicate Bounded(tables: Tables, root: nat, sz: nat) {
    forall v: nat :: Up(sz) <= v < TRAPFRAME ==> !Lookup(tables, root, v).v
  }

  /** Trampoline and trapframe are mapped as they were. */
  ghost predicate TopSame(t0: Tables, t1: Tables, root: nat) {
    forall v: nat :: TRAPFRAME <= v < NVPN ==> Lookup(t1, root, v) == Lookup(t0, root, v)
  }

  lemma TopSameTrans(t0: Tables, t1: Tables, t2: Tables, root: nat)
    requires TopSame(t0, t1, root) && TopSame(t1, t2, root)
    ensures TopSame(t0, t2, root)
  {
    hide Lookup;
  }

  /** What every operation of this module does to the physical pages. */
  ghost predicate Kept(t0: Tables, u0: Uses, t1: Tables, u1: Uses, root: nat, sz: nat) {
    && (forall r: nat :: IsRoot(t0, u0, r) <==> IsRoot(t1, u1, r))
    && Only(t0, u0, t1, u1, root) && TopSame(t0, t1, root)
    && (Bounded(t0, root, sz) ==> Bounded(t1, root, sz))
  }

  const UserRw := Pte(false, true, true, false, true, 0)

  /** A page that only the kernel can reach has the same owner and contents. */
  lemma KeptPage(t0: Tables, u0: Uses, d0: Contents, d1: Contents, r: nat, s: nat, v: nat)
    requires LeavesOk(t0, u0) && DataOk(d0, u0) && TopOk(t0, u0) && KeepsData(u0, d0, d1) && IsRoot(t0, u0, r)
    ensures PageView(t0, d1, r, s, v) == PageView(t0, d0, r, s, v)
  {
    hide Lookup;
    hide IsRoot;
  }

  /** Mapping a page of zeros below sz shows to nobody. */
  lemma FaultSeen(t0: Tables, u0: Uses, d0: Contents, t1: Tables, u1: Uses, d1: Contents, root: nat, sz: nat, v: nat)
    requires LeavesOk(t0, u0) && DataOk(d0, u0) && TopOk(t0, u0) && KeepsData(u0, d0, d1) && IsRoot(t0, u0, root)
    requires v < TRAPFRAME && v * PGSIZE < sz && Grew(t0, u0, t1, u1, root, v, v + 1, UserRw)
    requires Lookup(t1, root, v).ppn in d1 && d1[Lookup(t1, root, v).ppn] == ZeroPage()
    ensures AllSee(t0, u0, d0, t1, d1, root, sz) && TopOk(t1, u1) && Kept(t0, u0, t1, u1, root, sz)
  {
    hide Lookup;
    hide IsRoot;
    hide LeavesOk;
    forall r: nat, s: nat, w: nat | IsRoot(t0, u0, r) && !(r == root && w == v)
      ensures PageView(t1, d1, r, s, w) == PageView(t0, d0, r, s, w)
    {
      KeptPage(t0, u0, d0, d1, r, s, w);
    }
    assert GrownAt(t0, u0, t1, root, v, UserRw);
    UpIs(sz, v);
  }

  lemma SameSeen(t0: Tables, u0: Uses, d0: Contents, t1: Tables, u1: Uses, d1: Contents, root: nat, sz: nat)
    requires LeavesOk(t0, u0) && DataOk(d0, u0) && TopOk(t0, u0) && KeepsData(u0, d0, d1) && IsRoot(t0, u0, root)
    requires SameMap(t0, u0, t1, u1) && Took(u0, u1, root)
    ensures AllSee(t0, u0, d0, t1, d1, root, sz) && TopOk(t1, u1) && Kept(t0, u0, t1, u1, root, sz)
  {
    hide Lookup;
    hide IsRoot;
    hide LeavesOk;
    forall r: nat, s: nat, w: nat | IsRoot(t0, u0, r)
      ensures PageView(t1, d1, r, s, w) == PageView(t0, d0, r, s, w)
    {
      KeptPage(t0, u0, d0, d1, r, s, w);
    }
  }

  /** vmfault: map a page of zeros at a, if a is below sz and not mapped. The
      page table is the one of the process whose size is sz. */
  method Vmfault(vm: Vm, root: nat, sz: nat, a: nat) returns (ok: bool)
    requires vm.Valid() && TopOk(vm.tables, vm.use) && IsRoot(vm.tables, vm.use, root) && Up(sz) <= TRAPFRAME
    modifies vm
    ensures vm.Valid() && TopOk(vm.tables, vm.use) && IsRoot(vm.tables, vm.use, root)
    ensures AllSee(old(vm.tables), old(vm.use), old(vm.data), vm.tables, vm.data, root, sz)
    ensures ok ==> a / PGSIZE < NVPN && Lookup(vm.tables, root, a / PGSIZE).v && Lookup(vm.tables, root, a / PGSIZE).u
    ensures ok ==> a < sz && !Lookup(old(vm.tables), root, a / PGSIZE).v
                   && GrownAt(old(vm.tables), old(vm.use), vm.tables, root, a / PGSIZE, UserRw)
    ensures !ok ==> a >= sz || Lookup(old(vm.tables), root, a / PGSIZE).v || |vm.free| <= 1
    ensures Kept(old(vm.tables), old(vm.use), vm.tables, vm.use, root, sz)
  {
    hide Lookup;
    hide IsRoot;
    hide LeavesOk;
    hide TablesOk;
    hide FreeOk;
    hide PageView;
    hide WritablePage;
    hide Kept;
    hide Took;
    ghost var t0, u0, d0 := vm.tables, vm.use, vm.data;
    SameMapRefl(t0, u0);
    TookRefl(u0, root);
    SameSeen(t0, u0, d0, t0, u0, d0, root, sz);
    if a >= sz {
      return false;
    }
    var v := a / PGSIZE;
    var loc := vm.Walk(root, v, false);
    if loc.Some? && vm.tables[loc.value.0][loc.value.1].v {
      return false;
    }
    ok := vm.AddPage(root, v, UserRw, ZeroPage());
    if ok {
      assert GrownAt(t0, u0, vm.tables, root, v, UserRw);
      FaultSeen(t0, u0, d0, vm.tables, vm.use, vm.data, root, sz, v);
    } else {
      SameSeen(t0, u0, d0, vm.tables, vm.use, vm.data, root, sz);
    }
  }

  /** walkaddr: the physical page of a user page that is mapped. */
  method Walkaddr(vm: Vm, root: nat, v: nat) returns (pa: Option<nat>)
    requires vm.Valid() && IsRoot(vm.tables, vm.use, root) && TopOk(vm.tables, vm.use)
    modifies vm`tables, vm`free, vm`use
    ensures vm.tables == old(vm.tables) && vm.free == old(vm.free) && vm.use == old(vm.use)
    ensures pa.None? <==> v >= NVPN || !Lookup(vm.tables, root, v).v || !Lookup(vm.tables, root, v).u
    ensures pa.Some? ==> v < TRAPFRAME && pa.value == Lookup(vm.tables, root, v).ppn && pa.value in vm.data
  {
    hide Lookup;
    hide IsRoot;
    hide TablesOk;
    hide FreeOk;
    if v >= NVPN {
      return None;
    }
    var loc := vm.Walk(root, v, false);
    if loc.None? || !vm.tables[loc.value.0][loc.value.1].v || !vm.tables[loc.value.0][loc.value.1].u {
      return None;
    }
    UserPage(vm.tables, vm.use, vm.data, root, v);
    pa := Some(vm.tables[loc.value.0][loc.value.1].ppn);
  }

  /** p with s written from offset o on. */
  /** Writing a user page changes that page of that address space and no other. */
  lemma PageWritten(t: Tables, u: Uses, d: Contents, root: nat, v: nat, q: Page)
    requires LeavesOk(t, u) && DataOk(d, u) && TopOk(t, u) && IsRoot(t, u, root) && v < TRAPFRAME
    requires Lookup(t, root, v).v && Lookup(t, root, v).u
    ensures var d' := d[Lookup(t, root, v).ppn := q];
            && OthersSee(t, u, d, t, d', root) && DataOk(d', u)
            && forall s: nat, w: nat :: PageView(t, d', root, s, w) == if w == v then Some(q)
               else PageView(t, d, root, s, w)
  {
    hide Lookup;
    hide IsRoot;
  }

  /** The same in bytes: n bytes of src appear from dst on. */
  lemma BytesWritten(old_: Option<Page>, p: Page, src: seq<Byte>, i: nat, n: nat, dst: nat, a: nat)
    requires old_ == Some(p) && i + n <= |src| && dst % PGSIZE + n <= PGSIZE && a / PGSIZE == dst / PGSIZE
    ensures ByteOf(Some(Splice(p, dst % PGSIZE, src[i..i + n])), a % PGSIZE)
         == if dst <= a < dst + n then Some(src[i + a - dst]) else ByteOf(old_, a % PGSIZE)
  {
    assert a - a % PGSIZE == dst - dst % PGSIZE;
  }

  /** The view after n more bytes were written. */
  ghost predicate Written(t0: Tables, d0: Contents, t1: Tables, d1: Contents, root: nat, sz: nat, dstva: nat,
                          src: seq<Byte>, i: nat)
    requires i <= |src|
  {
    forall a: nat :: View(t1, d1, root, sz, a) == if dstva <= a < dstva + i then Some(src[a - dstva])
      else View(t0, d0, root, sz, a)
  }

  lemma WrittenMore(t0: Tables, d0: Contents, t1: Tables, u1: Uses, d1: Contents, root: nat, sz: nat, dstva: nat,
                    src: seq<Byte>, i: nat, n: nat)
    requires LeavesOk(t1, u1) && DataOk(d1, u1) && TopOk(t1, u1) && IsRoot(t1, u1, root)
    requires i + n <= |src| && (dstva + i) % PGSIZE + n <= PGSIZE && (dstva + i) / PGSIZE < TRAPFRAME
    requires Lookup(t1, root, (dstva + i) / PGSIZE).v && Lookup(t1, root, (dstva + i) / PGSIZE).u
    requires Lookup(t1, root, (dstva + i) / PGSIZE).ppn in d1
    requires Written(t0, d0, t1, d1, root, sz, dstva, src, i)
    ensures var pa := Lookup(t1, root, (dstva + i) / PGSIZE).ppn;
            var d2 := d1[pa := Splice(d1[pa], (dstva + i) % PGSIZE, src[i..i + n])];
            Written(t0, d0, t1, d2, root, sz, dstva, src, i + n) && OthersSee(t1, u1, d1, t1, d2, root)
              && DataOk(d2, u1)
  {
    hide Lookup;
    hide IsRoot;
    hide LeavesOk;
    hide TopOk;
    hide Splice;
    var dst := dstva + i;
    var v := dst / PGSIZE;
    var pa := Lookup(t1, root, v).ppn;
    var q := Splice(d1[pa], dst % PGSIZE, src[i..i + n]);
    PageWritten(t1, u1, d1, root, v, q);
    var d2 := d1[pa := q];
    forall a: nat
      ensures View(t1, d2, root, sz, a) == if dstva <= a < dst + n then Some(src[a - dstva])
              else View(t0, d0, root, sz, a)
    {
      assert View(t1, d1, root, sz, a) == if dstva <= a < dst then Some(src[a - dstva]) else View(t0, d0, root, sz, a);
      if a / PGSIZE == v {
        BytesWritten(PageView(t1, d1, root, sz, v), d1[pa], src, i, n, dst, a);
      } else {
        OtherPage(dst, n, a);
      }
    }
  }

  /** Addresses on other pages are outside the bytes written. */
  lemma OtherPage(dst: nat, n: nat, a: nat)
    requires dst % PGSIZE + n <= PGSIZE && a / PGSIZE != dst / PGSIZE
    ensures !(dst <= a < dst + n)
  {
  }

  lemma AllSeeWritten(t0: Tables, d0: Contents, t1: Tables, u1: Uses, d1: Contents, t2: Tables, d2: Contents, root: nat,
                      sz: nat, dstva: nat, src: seq<Byte>, i: nat)
    requires i <= |src| && Written(t0, d0, t1, d1, root, sz, dstva, src, i) && AllSee(t1, u1, d1, t2, d2, root, sz)
    ensures Written(t0, d0, t2, d2, root, sz, dstva, src, i) && OthersSee(t1, u1, d1, t2, d2, root)
    ensures forall v: nat :: Rights(t2, root, sz, v) == Rights(t1, root, sz, v)
  {
    hide PageView;
    hide Rights;
    forall a: nat
      ensures View(t2, d2, root, sz, a) == View(t1, d1, root, sz, a)
    {
    }
  }

  lemma CopyStarts(t: Tables, u: Uses, d: Contents, root: nat, sz: nat, a: nat, src: seq<Byte>)
    ensures Kept(t, u, t, u, root, sz) && OthersSee(t, u, d, t, d, root) && Written(t, d, t, d, root, sz, a, src, 0)
  {
    hide Lookup;
    hide IsRoot;
    hide PageView;
  }

  lemma KeptTrans(t0: Tables, u0: Uses, t1: Tables, u1: Uses, t2: Tables, u2: Uses, root: nat, sz: nat)
    requires Kept(t0, u0, t1, u1, root, sz) && Kept(t1, u1, t2, u2, root, sz)
    ensures Kept(t0, u0, t2, u2, root, sz)
  {
    hide Bounded;
    hide IsRoot;
    hide Lookup;
    hide Only;
    OnlyTrans(t0, u0, t1, u1, t2, u2, root);
  }

  lemma OthersSeeTrans(t0: Tables, u0: Uses, d0: Contents, t1: Tables, u1: Uses, d1: Contents, t2: Tables, d2: Contents,
                       root: nat)
    requires OthersSee(t0, u0, d0, t1, d1, root) && OthersSee(t1, u1, d1, t2, d2, root)
    requires Only(t0, u0, t1, u1, root)
    ensures OthersSee(t0, u0, d0, t2, d2, root)
  {
    hide PageView;
    hide IsRoot;
  }

  /** The user page at v, mapped first when it is due but missing: walkaddr,
      then vmfault. */
  method Reach(vm: Vm, root: nat, sz: nat, v: nat) returns (pa: Option<nat>)
    requires vm.Valid() && TopOk(vm.tables, vm.use) && IsRoot(vm.tables, vm.use, root) && Up(sz) <= TRAPFRAME
    modifies vm
    ensures vm.Valid() && TopOk(vm.tables, vm.use) && IsRoot(vm.tables, vm.use, root)
    ensures AllSee(old(vm.tables), old(vm.use), old(vm.data), vm.tables, vm.data, root, sz)
    ensures Kept(old(vm.tables), old(vm.use), vm.tables, vm.use, root, sz)
    ensures pa.Some? ==> v < TRAPFRAME && pa.value == Lookup(vm.tables, root, v).ppn && pa.value in vm.data
    ensures pa.Some? ==> Lookup(vm.tables, root, v).v && Lookup(vm.tables, root, v).u
    ensures pa.None? ==>
              || (PageView(old(vm.tables), old(vm.data), root, sz, v).None?
                  && !WritablePage(old(vm.tables), root, sz, v))
              || |vm.free| <= 1
    ensures v < NVPN && Lookup(old(vm.tables), root, v).v && Lookup(old(vm.tables), root, v).u ==>
              pa.Some? && vm.tables == old(vm.tables) && vm.use == old(vm.use)
  {
    hide Lookup;
    hide IsRoot;
    hide LeavesOk;
    hide TablesOk;
    hide FreeOk;
    hide TopOk;
    ghost var t0, u0, d0 := vm.tables, vm.use, vm.data;
    SameMapRefl(t0, u0);
    TookRefl(u0, root);
    SameSeen(t0, u0, d0, t0, u0, d0, root, sz);
    pa := Walkaddr(vm, root, v);
    if pa.None? {
      var ok := Vmfault(vm, root, sz, v * PGSIZE);
      assert v * PGSIZE / PGSIZE == v;
      if ok {
        pa := Walkaddr(vm, root, v);
      }
    }
  }

  /** Page v is mapped for the user to write. */
  ghost predicate MappedRw(tables: Tables, root: nat, v: nat) {
    v < NVPN && Lookup(tables, root, v).v && Lookup(tables, root, v).u && Lookup(tables, root, v).w
  }

  /** The n bytes from a on are in such pages. */
  ghost predicate RangeRw(tables: Tables, root: nat, a: nat, n: nat) {
    forall b: nat :: a <= b < a + n ==> MappedRw(tables, root, b / PGSIZE)
  }

  lemma RangeRwAt(tables: Tables, root: nat, a: nat, n: nat, b: nat)
    requires a <= b < a + n
    ensures RangeRw(tables, root, a, n) ==> MappedRw(tables, root, b / PGSIZE)
  {
  }

  /** copyout: the view changes at exactly the bytes copied, which are all of
      src when it succeeds. It stops only at a page the user may not write, or
      for want of memory; where the pages are there it does not stop, and maps
      nothing. */
  method Copyout(vm: Vm, root: nat, sz: nat, dstva: nat, src: seq<Byte>) returns (ok: bool, ghost done: nat)
    requires vm.Valid() && TopOk(vm.tables, vm.use) && IsRoot(vm.tables, vm.use, root) && Up(sz) <= TRAPFRAME
    modifies vm
    ensures vm.Valid() && TopOk(vm.tables, vm.use) && IsRoot(vm.tables, vm.use, root)
    ensures done <= |src| && (ok <==> done == |src|)
    ensures Written(old(vm.tables), old(vm.data), vm.tables, vm.data, root, sz, dstva, src, done)
    ensures OthersSee(old(vm.tables), old(vm.use), old(vm.data), vm.tables, vm.data, root)
    ensures Kept(old(vm.tables), old(vm.use), vm.tables, vm.use, root, sz)
    ensures forall a: nat :: dstva <= a < dstva + done ==> Writable(old(vm.tables), root, sz, a)
    ensures !ok ==> !Writable(old(vm.tables), root, sz, dstva + done) || |vm.free| <= 1
    ensures RangeRw(old(vm.tables), root, dstva, |src|) ==> ok && vm.tables == old(vm.tables) && vm.use == old(vm.use)
  {
    hide Lookup;
    hide IsRoot;
    hide LeavesOk;
    hide TablesOk;
    hide FreeOk;
    hide TopOk;
    hide View;
    hide PageView;
    hide DataOk;
    hide Only;
    hide Bounded;
    hide OthersSee;
    hide AllSee;
    hide Written;
    hide RangeRw;
    ghost var t0, u0, d0 := vm.tables, vm.use, vm.data;
    CopyStarts(t0, u0, d0, root, sz, dstva, src);
    var i, dst := 0, dstva;
    while i < |src|
      invariant 0 <= i <= |src| && (i < |src| ==> dst == dstva + i)
      invariant vm.Valid() && TopOk(vm.tables, vm.use) && IsRoot(vm.tables, vm.use, root)
      invariant Written(t0, d0, vm.tables, vm.data, root, sz, dstva, src, i)
      invariant OthersSee(t0, u0, d0, vm.tables, vm.data, root)
      invariant Kept(t0, u0, vm.tables, vm.use, root, sz)
      invariant forall v: nat :: Rights(vm.tables, root, sz, v) == Rights(t0, root, sz, v)
      invariant forall a: nat :: dstva <= a < dstva + i ==> Writable(t0, root, sz, a)
      invariant RangeRw(t0, root, dstva, |src|) ==> vm.tables == t0 && vm.use == u0
    {
      ghost var t1, u1, d1 := vm.tables, vm.use, vm.data;
      var v := dst / PGSIZE;
      RangeRwAt(t0, root, dstva, |src|, dst);
      if v >= NVPN {
        return false, i;
      }
      var pa := Reach(vm, root, sz, v);
      AllSeeWritten(t0, d0, t1, u1, d1, vm.tables, vm.data, root, sz, dstva, src, i);
      OthersSeeTrans(t0, u0, d0, t1, u1, d1, vm.tables, vm.data, root);
      KeptTrans(t0, u0, t1, u1, vm.tables, vm.use, root, sz);
      if pa.None? {
        return false, i;
      }
      var loc := vm.Walk(root, v, false);
      if !vm.tables[loc.value.0][loc.value.1].w {
        return false, i;
      }
      var n := if PGSIZE - dst % PGSIZE < |src| - i then PGSIZE - dst % PGSIZE else |src| - i;
      WrittenMore(t0, d0, vm.tables, vm.use, vm.data, root, sz, dstva, src, i, n);
      ghost var t2, d2 := vm.tables, vm.data;
      vm.data := vm.data[pa.value := Splice(vm.data[pa.value], dst % PGSIZE, src[i..i + n])];
      OthersSeeTrans(t0, u0, d0, t2, vm.use, d2, vm.tables, vm.data, root);
      forall a | dst <= a < dst + n
        ensures a / PGSIZE == v
      {
        SamePage(dst, n, a);
      }
      if n == PGSIZE - dst % PGSIZE {
        NextPage(dst, n);
      }
      i, dst := i + n, (v + 1) * PGSIZE;
    }
    return true, i;
  }

  /** The next page starts where a page is left full. */
  lemma SamePage(dst: nat, n: nat, a: nat)
    requires dst % PGSIZE + n <= PGSIZE && dst <= a < dst + n
    ensures a / PGSIZE == dst / PGSIZE
  {
  }

  lemma NextPage(dst: nat, n: nat)
    requires dst % PGSIZE + n == PGSIZE
    ensures (dst / PGSIZE + 1) * PGSIZE == dst + n
  {
  }

  lemma Mapped(t: Tables, d: Contents, root: nat, sz: nat, v: nat)
    requires v < NVPN && Lookup(t, root, v).v && Lookup(t, root, v).u && Lookup(t, root, v).ppn in d
    ensures PageView(t, d, root, sz, v) == Some(d[Lookup(t, root, v).ppn])
  {
    hide Lookup;
  }

  /** copyin: the bytes the user sees from srcva on, and no change to anyone's
      view. It stops only at a byte the user does not have, or for want of
      memory. */
  method Copyin(vm: Vm, root: nat, sz: nat, srcva: nat, len: nat) returns (ok: bool, dst: seq<Byte>)
    requires vm.Valid() && TopOk(vm.tables, vm.use) && IsRoot(vm.tables, vm.use, root) && Up(sz) <= TRAPFRAME
    modifies vm
    ensures vm.Valid() && TopOk(vm.tables, vm.use) && IsRoot(vm.tables, vm.use, root)
    ensures |dst| <= len && (ok <==> |dst| == len)
    ensures Seen(old(vm.tables), old(vm.data), root, sz, srcva, dst)
    ensures forall a: nat :: View(vm.tables, vm.data, root, sz, a) == View(old(vm.tables), old(vm.data), root, sz, a)
    ensures OthersSee(old(vm.tables), old(vm.use), old(vm.data), vm.tables, vm.data, root)
    ensures Kept(old(vm.tables), old(vm.use), vm.tables, vm.use, root, sz)
    ensures !ok ==> View(old(vm.tables), old(vm.data), root, sz, srcva + |dst|).None? || |vm.free| <= 1
  {
    hide Lookup;
    hide IsRoot;
    hide LeavesOk;
    hide TablesOk;
    hide FreeOk;
    hide TopOk;
    hide DataOk;
    hide PageView;
    hide WritablePage;
    hide Only;
    hide Bounded;
    hide OthersSee;
    ghost var t0, u0, d0 := vm.tables, vm.use, vm.data;
    CopyStarts(t0, u0, d0, root, sz, srcva, []);
    var src := srcva;
    dst := [];
    while |dst| < len
      invariant |dst| <= len && (|dst| < len ==> src == srcva + |dst|)
      invariant vm.Valid() && TopOk(vm.tables, vm.use) && IsRoot(vm.tables, vm.use, root)
      invariant Seen(t0, d0, root, sz, srcva, dst)
      invariant forall v: nat :: PageView(vm.tables, vm.data, root, sz, v) == PageView(t0, d0, root, sz, v)
      invariant OthersSee(t0, u0, d0, vm.tables, vm.data, root)
      invariant Kept(t0, u0, vm.tables, vm.use, root, sz)
      decreases len - |dst|
    {
      ghost var t1, u1, d1 := vm.tables, vm.use, vm.data;
      var v := src / PGSIZE;
      var pa := Reach(vm, root, sz, v);
      OthersSeeTrans(t0, u0, d0, t1, u1, d1, vm.tables, vm.data, root);
      KeptTrans(t0, u0, t1, u1, vm.tables, vm.use, root, sz);
      if pa.None? {
        return false, dst;
      }
      var n := if PGSIZE - src % PGSIZE < len - |dst| then PGSIZE - src % PGSIZE else len - |dst|;
      var part := vm.data[pa.value][src % PGSIZE..src % PGSIZE + n];
      Mapped(vm.tables, vm.data, root, sz, v);
      PartSeen(vm.data[pa.value], t0, d0, root, sz, src, n);
      SeenMore(t0, d0, root, sz, srcva, dst, part);
      if n == PGSIZE - src % PGSIZE {
        NextPage(src, n);
      }
      dst, src := dst + part, (v + 1) * PGSIZE;
    }
    return true, dst;
  }

  /** The user sees the bytes of s from address a on. */
  ghost predicate Seen(t: Tables, d: Contents, root: nat, sz: nat, a: nat, s: seq<Byte>) {
    forall i :: 0 <= i < |s| ==> View(t, d, root, sz, a + i) == Some(s[i])
  }

  /** The part of a mapped page from src on is what the user sees there. */
  lemma PartSeen(p: Page, t: Tables, d: Contents, root: nat, sz: nat, src: nat, n: nat)
    requires src % PGSIZE + n <= PGSIZE && PageView(t, d, root, sz, src / PGSIZE) == Some(p)
    ensures Seen(t, d, root, sz, src, p[src % PGSIZE..src % PGSIZE + n])
  {
    hide PageView;
    var s := p[src % PGSIZE..src % PGSIZE + n];
    forall i | 0 <= i < |s|
      ensures View(t, d, root, sz, src + i) == Some(s[i])
    {
      SamePage(src, n, src + i);
      assert (src + i) % PGSIZE == src % PGSIZE + i;
    }
  }

  lemma SeenMore(t: Tables, d: Contents, root: nat, sz: nat, a: nat, s: seq<Byte>, s': seq<Byte>)
    requires Seen(t, d, root, sz, a, s) && Seen(t, d, root, sz, a + |s|, s')
    ensures Seen(t, d, root, sz, a, s + s')
  {
    hide View;
    forall i | 0 <= i < |s + s'|
      ensures View(t, d, root, sz, a + i) == Some((s + s')[i])
    {
      if i >= |s| {
        assert a + i == a + |s| + (i - |s|);
      }
    }
  }

  /** What copyout wrote, copyin reads back, across pages and page faults. */
  lemma ReadBack(t0: Tables, d0: Contents, t1: Tables, d1: Contents, root: nat, sz: nat, a: nat, src: seq<Byte>,
                 dst: seq<Byte>)
    requires Written(t0, d0, t1, d1, root, sz, a, src, |src|) && Seen(t1, d1, root, sz, a, dst) && |dst| == |src|
    ensures dst == src
  {
    hide View;
    forall i | 0 <= i < |src|
      ensures dst[i] == src[i]
    {
      assert View(t1, d1, root, sz, a + i) == Some(dst[i]);
    }
  }

  /** After uvmcopy the child sees what the parent saw, at every address. */
  lemma ChildSees(t0: Tables, u0: Uses, d0: Contents, t1: Tables, u1: Uses, d1: Contents, src: nat, dst: nat, sz: nat,
                  v: nat)
    requires LeavesOk(t0, u0) && DataOk(d0, u0) && TopOk(t0, u0) && KeepsData(u0, d0, d1) && Up(sz) <= TRAPFRAME
    requires IsRoot(t0, u0, src) && IsRoot(t0, u0, dst) && src != dst
    requires Bounded(t0, src, sz) && Bounded(t0, dst, sz)
    requires Copied(t0, u0, t1, u1, src, dst, Up(sz)) && SameContents(t1, d1, src, dst, Up(sz))
    ensures PageView(t1, d1, dst, sz, v) == PageView(t0, d0, src, sz, v) == PageView(t1, d1, src, sz, v)
    ensures Rights(t1, dst, sz, v) == Rights(t0, src, sz, v)
  {
    hide Lookup;
    hide IsRoot;
    hide LeavesOk;
    hide DataOk;
    KeptPage(t0, u0, d0, d1, src, sz, v);
    UpIs(sz, v);
    if v < Up(sz) {
      assert CopiedAt(t0, u0, t1, src, dst, v);
    }
  }

  lemma UpIs(sz: nat, v: nat)
    ensures v < Up(sz) <==> v * PGSIZE < sz
  {
  }

  /** uvmclear: the page is out of the user's reach, and nothing else changes.
      exec makes the page below the stack a guard page this way. */
  method Uvmclear(vm: Vm, root: nat, v: nat) returns (panic: bool)
    requires vm.Valid() && TopOk(vm.tables, vm.use) && IsRoot(vm.tables, vm.use, root) && v < TRAPFRAME
    modifies vm`tables, vm`free, vm`use
    ensures vm.Valid() && TopOk(vm.tables, vm.use) && IsRoot(vm.tables, vm.use, root) && vm.use == old(vm.use)
            && vm.free == old(vm.free)
    ensures Lookup(old(vm.tables), root, v).v ==> !panic
    ensures panic ==> vm.tables == old(vm.tables)
    ensures !panic ==> PutAt(old(vm.tables), vm.use, vm.tables, vm.use, root, v,
                             Lookup(old(vm.tables), root, v).(u := false))
    ensures forall s: nat :: Lookup(old(vm.tables), root, v).v ==>
              PageView(vm.tables, vm.data, root, s, v).None? && Rights(vm.tables, root, s, v).None?
  {
    hide Lookup;
    hide IsRoot;
    hide LeavesOk;
    hide TablesOk;
    hide FreeOk;
    ghost var t0 := vm.tables;
    var loc := vm.Walk(root, v, false);
    if loc.None? {
      return true;
    }
    var (p, i) := loc.value;
    var e := vm.tables[p][i].(u := false);
    LookupZero(t0, vm.use, root, v);
    SetLeafTables(t0, vm.use, p, i, e, root, Prefix(0, v));
    SameMapRefl(t0, vm.use);
    PutAtEntry(t0, vm.use, t0, vm.use, root, v, p, i, e);
    vm.tables := SetEntry(vm.tables, p, i, e);
    FlagsLeaves(t0, vm.tables, vm.use, root, v, e);
    return false;
  }

  /** A change of flags moves no page. */
  lemma FlagsLeaves(t0: Tables, t1: Tables, u: Uses, root: nat, v: nat, e: Pte)
    requires LeavesOk(t0, u) && TopOk(t0, u) && PutAt(t0, u, t1, u, root, v, e) && IsRoot(t0, u, root) && v < NVPN
    requires e.v == Lookup(t0, root, v).v && e.ppn == Lookup(t0, root, v).ppn && !e.u
    ensures LeavesOk(t1, u) && TopOk(t1, u)
  {
    hide Lookup;
    hide IsRoot;
    forall p | p in u && u[p].Leaf?
      ensures LeafAt(t1, u, p)
    {
      assert LeafAt(t0, u, p);
    }
  }

  /** Address translation as Sv39 does it (section 4.3.2, steps 2 to 5, of the
      RISC-V Privileged Architecture, version 20211203), for addresses whose
      bits 38 and up are clear: the physical address, or a page fault. */
  ghost function Translate(tables: Tables, p: nat, level: nat, va: nat): (r: Option<nat>)
    requires level <= 2
    decreases level
  {
    var e := Entry(tables, p, level, va / PGSIZE);
    if !e.v || (!e.r && e.w) then None
    else if e.r || e.x then
      // a leaf; a superpage must be aligned
      var size := if level == 2 then 262144 else if level == 1 then 512 else 1;
      if e.ppn % size != 0 then None else Some((e.ppn + va / PGSIZE % size) * PGSIZE + va % PGSIZE)
    else if level == 0 then None
    else Translate(tables, e.ppn, level - 1, va)
  }

  /** The hardware finds the page that the flat map gives, and faults when
      there is none or its flags are the reserved write-only ones. */
  lemma TranslateAgrees(tables: Tables, use: Uses, root: nat, va: nat)
    requires TablesOk(tables, use) && IsRoot(tables, use, root) && va / PGSIZE < NVPN
    ensures var e := Lookup(tables, root, va / PGSIZE);
            Translate(tables, root, 2, va) == if e.v && (e.r || !e.w) then Some(e.ppn * PGSIZE + va % PGSIZE) else None
  {
    hide TablesOk;
    var vpn := va / PGSIZE;
    WalkDown(tables, use, root, vpn);
    LookupZero(tables, use, root, vpn);
    var e2 := Entry(tables, root, 2, vpn);
    var e1 := Entry(tables, e2.ppn, 1, vpn);
    var e0 := Entry(tables, e1.ppn, 0, vpn);
    assert e2.v && e1.v ==> Lookup(tables, root, vpn) == e0;
    assert e2.v && e1.v ==> Translate(tables, root, 2, va) == Translate(tables, e1.ppn, 0, va);
  }
}
