/** Address spaces of processes (proc_pagetable and growproc in kernel/proc.c,
    sys_sbrk in kernel/sysproc.c) and what a process can ask of its own. */
module ProcMemory {
  import opened Base
  import opened PageTable
  import opened Vm
  import opened UserMemory
  import opened Teardown

  /** The address space of a process of size sz. */
  ghost predicate Space(vm: Vm, root: nat, sz: nat)
    reads vm
  {
    && vm.Valid() && TopOk(vm.tables, vm.use) && IsRoot(vm.tables, vm.use, root)
    && Up(sz) <= TRAPFRAME && Bounded(vm.tables, root, sz)
  }

  lemma NewRootTables(tables: Tables, use: Uses, p: nat)
    requires TablesOk(tables, use) && p in use && use[p].Free?
    ensures TablesOk(tables[p := ZeroTable()], use[p := Table(p, 2, 0, p)])
  {
    var t, u := tables[p := ZeroTable()], use[p := Table(p, 2, 0, p)];
    forall q | q in t && q != p
      ensures EntriesOk(t, u, q) && ParentOk(t, u, q)
    {
      assert EntriesOk(tables, use, q) && ParentOk(tables, use, q);
    }
  }

  lemma NewRootMap(tables: Tables, use: Uses, p: nat)
    requires TablesOk(tables, use) && p in use && use[p].Free?
    ensures var t, u := tables[p := ZeroTable()], use[p := Table(p, 2, 0, p)];
            && IsRoot(t, u, p) && OthersMap(tables, use, t, u, p)
            && forall v: nat :: Lookup(t, p, v) == ZeroPte
  {
    hide EntriesOk;
    hide ParentOk;
    var t := tables[p := ZeroTable()];
    forall r: nat, v: nat | r != p && IsRoot(tables, use, r) && v < NVPN
      ensures Lookup(t, r, v) == Lookup(tables, r, v)
    {
      WalkDown(tables, use, r, v);
    }
  }

  /** uvmcreate: the new root maps nothing. */
  lemma NewRoot(tables: Tables, use: Uses, p: nat)
    requires TablesOk(tables, use) && LeavesOk(tables, use) && TopOk(tables, use) && p in use && use[p].Free?
    ensures var t, u := tables[p := ZeroTable()], use[p := Table(p, 2, 0, p)];
            && TablesOk(t, u) && LeavesOk(t, u) && TopOk(t, u) && IsRoot(t, u, p) && OthersMap(tables, use, t, u, p)
            && !IsRoot(tables, use, p) && Within(use, u, p)
            && forall v: nat :: Lookup(t, p, v) == ZeroPte
  {
    hide TablesOk;
    hide Lookup;
    NewRootTables(tables, use, p);
    NewRootMap(tables, use, p);
    var t, u := tables[p := ZeroTable()], use[p := Table(p, 2, 0, p)];
    forall q | q in u && u[q].Leaf?
      ensures LeafAt(t, u, q)
    {
      assert LeafAt(tables, use, q);
    }
  }

  /** Pages belong to address spaces that exist. */
  lemma NoneOurs(tables: Tables, use: Uses, root: nat)
    requires TablesOk(tables, use) && LeavesOk(tables, use) && !IsRoot(tables, use, root)
    ensures forall p :: p in use ==> !Ours(use[p], root)
  {
    hide EntriesOk;
    hide Lookup;
    forall p | p in use && use[p].Leaf?
      ensures use[p].root != root
    {
      assert LeafAt(tables, use, p);
    }
    forall p | p in use && use[p].Table?
      ensures use[p].root != root
    {
      TableRoot(tables, use, p);
    }
  }

  lemma {:induction false} TableRoot(tables: Tables, use: Uses, p: nat)
    requires TablesOk(tables, use) && p in use && use[p].Table? && use[p].level <= 2
    ensures IsRoot(tables, use, use[p].root)
    decreases 2 - use[p].level
  {
    hide EntriesOk;
    assert ParentOk(tables, use, p);
    if use[p].level < 2 {
      TableRoot(tables, use, use[p].parent);
    }
  }

  /** Mapping the trampoline or the trapframe. */
  lemma TopMapped(t0: Tables, u0: Uses, t1: Tables, u1: Uses, root: nat, a: nat, n: nat, ppn: nat, perm: Pte)
    requires LeavesOk(t0, u0) && TopOk(t0, u0) && Took(u0, u1, root) && TRAPFRAME <= a < NVPN && n <= 1 && !perm.u
             && IsRoot(t0, u0, root)
    requires Inserted(t0, u0, t1, u1, root, a, n, ppn, perm)
    ensures LeavesOk(t1, u1) && TopOk(t1, u1) && OthersMap(t0, u0, t1, u1, root) && Within(u0, u1, root)
    ensures IsRoot(t1, u1, root)
    ensures forall v: nat :: v < NVPN ==>
              Lookup(t1, root, v) == if v == a && n == 1 then perm.(v := true, ppn := ppn) else Lookup(t0, root, v)
  {
    hide Lookup;
    hide IsRoot;
    forall p | p in u1 && u1[p].Leaf?
      ensures LeafAt(t1, u1, p)
    {
      assert LeafAt(t0, u0, p);
    }
  }

  const KernelRx := Pte(false, true, false, true, false, 0)
  const KernelRw := Pte(false, true, true, false, false, 0)

  /** A new address space holds the trampoline and the trapframe only. */
  ghost predicate Fresh(tables: Tables, root: nat, trampoline: nat, trapframe: nat) {
    forall v: nat :: v < NVPN ==>
      Lookup(tables, root, v) ==
      if v == TRAMPOLINE then KernelRx.(v := true, ppn := trampoline)
      else if v == TRAPFRAME then KernelRw.(v := true, ppn := trapframe) else ZeroPte
  }

  /** The trampoline page is where the kernel enters and leaves user mode. */
  ghost predicate EntryAt(tables: Tables, root: nat, trampoline: nat) {
    Lookup(tables, root, TRAMPOLINE) == KernelRx.(v := true, ppn := trampoline)
  }

  /** An address space made and freed again leaves no trace. */
  lemma NoTrace(t0: Tables, u0: Uses, t1: Tables, u1: Uses, t2: Tables, u2: Uses, root: nat)
    requires TablesOk(t0, u0) && LeavesOk(t0, u0) && !IsRoot(t0, u0, root) && !IsRoot(t2, u2, root)
    requires Only(t0, u0, t1, u1, root) && Gone(u1, u2, root) && OthersMap(t1, u1, t2, u2, root)
    ensures u2 == u0 && SameMap(t0, u0, t2, u2)
  {
    hide Lookup;
    hide IsRoot;
    hide TablesOk;
    hide LeavesOk;
    NoneOurs(t0, u0, root);
    forall r: nat, v: nat | IsRoot(t0, u0, r) && v < NVPN
      ensures Lookup(t2, r, v) == Lookup(t0, r, v)
    {
      assert Lookup(t2, r, v) == Lookup(t1, r, v);
    }
  }

  /** uvmcreate */
  method Uvmcreate(vm: Vm) returns (res: Option<nat>)
    requires vm.Valid() && TopOk(vm.tables, vm.use)
    modifies vm`tables, vm`free, vm`use
    ensures vm.Valid() && TopOk(vm.tables, vm.use)
    ensures res.None? ==> vm.tables == old(vm.tables) && vm.use == old(vm.use)
    ensures res.Some? ==>
              && !IsRoot(old(vm.tables), old(vm.use), res.value) && IsRoot(vm.tables, vm.use, res.value)
              && (forall v: nat :: Lookup(vm.tables, res.value, v) == ZeroPte)
              && Only(old(vm.tables), old(vm.use), vm.tables, vm.use, res.value)
    ensures if res.Some? then |vm.free| + 1 == |old(vm.free)| else old(vm.free) == []
  {
    hide TablesOk;
    hide LeavesOk;
    hide Lookup;
    hide IsRoot;
    hide OthersMap;
    hide Within;
    ghost var t0, u0 := vm.tables, vm.use;
    res := vm.Kalloc();
    if res.Some? {
      NewRoot(t0, u0, res.value);
      vm.tables := vm.tables[res.value := ZeroTable()];
      vm.use := vm.use[res.value := Table(res.value, 2, 0, res.value)];
      assert vm.use == u0[res.value := Table(res.value, 2, 0, res.value)];
    }
  }

  /** mappages of the trampoline or the trapframe. */
  method MapTop(vm: Vm, root: nat, a: nat, ppn: nat, perm: Pte) returns (ok: bool)
    requires vm.Valid() && TopOk(vm.tables, vm.use) && IsRoot(vm.tables, vm.use, root)
    requires TRAPFRAME <= a < NVPN && IsLeaf(perm) && !perm.u && !Lookup(vm.tables, root, a).v
    modifies vm`tables, vm`free, vm`use
    ensures vm.Valid() && TopOk(vm.tables, vm.use) && IsRoot(vm.tables, vm.use, root)
    ensures Only(old(vm.tables), old(vm.use), vm.tables, vm.use, root)
    ensures forall v: nat :: v < NVPN ==>
              Lookup(vm.tables, root, v) == if v == a
                && ok then perm.(v := true, ppn := ppn) else Lookup(old(vm.tables), root, v)
    ensures if ok then |vm.free| + 2 >= |old(vm.free)| else |old(vm.free)| < 2
  {
    hide TablesOk;
    hide FreeOk;
    hide LeavesOk;
    hide Lookup;
    hide IsRoot;
    hide TopOk;
    hide OthersMap;
    hide Within;
    hide Inserted;
    ghost var t0, u0 := vm.tables, vm.use;
    var res, n := vm.Mappages(root, a, 1, ppn, perm);
    TopMapped(t0, u0, vm.tables, vm.use, root, a, n, ppn, perm);
    ok := res == Mapped;
  }

  /** Table pages enough for a new address space. */
  const PERSPACE: nat := 5

  /** proc_pagetable: a new address space, or, for want of memory, everything as
      it was. */
  method ProcPagetable(vm: Vm, trampoline: nat, trapframe: nat) returns (res: Option<nat>)
    requires vm.Valid() && TopOk(vm.tables, vm.use)
    modifies vm`tables, vm`free, vm`use
    ensures vm.Valid() && TopOk(vm.tables, vm.use)
    ensures res.None? ==> vm.use == old(vm.use) && SameMap(old(vm.tables), old(vm.use), vm.tables, vm.use)
    ensures res.Some? ==>
              && !IsRoot(old(vm.tables), old(vm.use), res.value) && IsRoot(vm.tables, vm.use, res.value)
              && Fresh(vm.tables, res.value, trampoline, trapframe)
              && Only(old(vm.tables), old(vm.use), vm.tables, vm.use, res.value)
    ensures if res.Some? then |vm.free| + PERSPACE >= |old(vm.free)| else |old(vm.free)| < PERSPACE
  {
    hide TablesOk;
    hide FreeOk;
    hide LeavesOk;
    hide Lookup;
    hide IsRoot;
    hide TopOk;
    hide Only;
    hide OthersMap;
    hide DataOk;
    hide Gone;
    ghost var t0, u0 := vm.tables, vm.use;
    SameMapRefl(t0, u0);
    res := Uvmcreate(vm);
    if res.None? {
      return;
    }
    var root := res.value;
    ghost var t1, u1 := vm.tables, vm.use;
    var ok := MapTop(vm, root, TRAMPOLINE, trampoline, KernelRx);
    ghost var t2, u2 := vm.tables, vm.use;
    OnlyTrans(t0, u0, t1, u1, t2, u2, root);
    if !ok {
      var panic := Uvmfree(vm, root, 0);
      NoTrace(t0, u0, t2, u2, vm.tables, vm.use, root);
      SameTop(t0, u0, vm.tables, vm.use);
      return None;
    }
    ok := MapTop(vm, root, TRAPFRAME, trapframe, KernelRw);
    ghost var t3, u3 := vm.tables, vm.use;
    OnlyTrans(t0, u0, t2, u2, t3, u3, root);
    if !ok {
      UnmapSpecial(vm, root, TRAMPOLINE);
      UnmapOnly(t3, vm.tables, u3, root);
      ghost var t4 := vm.tables;
      OnlyTrans(t0, u0, t3, u3, t4, u3, root);
      var panic := Uvmfree(vm, root, 0);
      NoTrace(t0, u0, t4, u3, vm.tables, vm.use, root);
      SameTop(t0, u0, vm.tables, vm.use);
      return None;
    }
  }

  lemma SameTop(t0: Tables, u0: Uses, t1: Tables, u1: Uses)
    requires TopOk(t0, u0) && SameMap(t0, u0, t1, u1)
    ensures TopOk(t1, u1)
  {
    hide Lookup;
    hide IsRoot;
  }

  lemma UnmapOnly(t0: Tables, t1: Tables, u: Uses, root: nat)
    requires Removed(t0, u, t1, u, root, TRAMPOLINE, TRAMPOLINE + 1) && IsRoot(t0, u, root)
    ensures Only(t0, u, t1, u, root)
    ensures forall v: nat :: v < NVPN ==>
              Lookup(t1, root, v) == if v == TRAMPOLINE then ZeroPte else Lookup(t0, root, v)
  {
    hide Lookup;
    hide IsRoot;
  }

  type Int32 = n: int | -0x8000_0000 <= n < 0x8000_0000

  /** What the user sees when the size goes from sz to sz': pages past the new
      end are gone, pages past the old end are zeros with the given access, others stay. */
  ghost predicate Resized(t0: Tables, d0: Contents, t1: Tables, d1: Contents, root: nat, sz: nat, sz': nat,
                          access: Access) {
    && (forall v: nat :: v < TRAPFRAME ==>
          PageView(t1, d1, root, sz', v) ==
          if v >= Up(sz') then None else if v >= Up(sz) then Some(ZeroPage()) else PageView(t0, d0, root, sz, v))
    && (forall v: nat :: v < TRAPFRAME ==>
          Rights(t1, root, sz', v) ==
          if v >= Up(sz') then None else if v >= Up(sz) then Some(access) else Rights(t0, root, sz, v))
  }

  lemma GrewKept(t0: Tables, u0: Uses, t1: Tables, u1: Uses, root: nat, sz: nat, sz': nat, perm: Pte)
    requires TopOk(t0, u0) && IsRoot(t0, u0, root) && Bounded(t0, root, sz) && sz <= sz' && Up(sz') <= TRAPFRAME
    requires Grew(t0, u0, t1, u1, root, Up(sz), Up(sz'), perm)
    ensures Bounded(t1, root, sz') && TopOk(t1, u1) && Only(t0, u0, t1, u1, root) && TopSame(t0, t1, root)
  {
    hide Lookup;
    hide IsRoot;
  }

  lemma GrewSeen(t0: Tables, u0: Uses, d0: Contents, t1: Tables, u1: Uses, d1: Contents, root: nat, sz: nat, sz': nat,
                 perm: Pte)
    requires LeavesOk(t0, u0) && DataOk(d0, u0) && TopOk(t0, u0) && IsRoot(t0, u0, root) && Bounded(t1, root, sz')
    requires KeepsData(u0, d0, d1) && sz <= sz' && Up(sz') <= TRAPFRAME && perm.u
    requires Grew(t0, u0, t1, u1, root, Up(sz), Up(sz'), perm) && ZeroPages(t1, d1, root, Up(sz), Up(sz'))
    ensures Resized(t0, d0, t1, d1, root, sz, sz', Access(perm.r, perm.w, perm.x))
            && OthersSee(t0, u0, d0, t1, d1, root)
  {
    hide Lookup;
    hide IsRoot;
    hide LeavesOk;
    hide DataOk;
    hide KeepsData;
    hide TopOk;
    forall r: nat, s: nat, v: nat | r != root && IsRoot(t0, u0, r)
      ensures PageView(t1, d1, r, s, v) == PageView(t0, d0, r, s, v)
    {
      KeptPage(t0, u0, d0, d1, r, s, v);
    }
    forall v: nat | v < TRAPFRAME
      ensures PageView(t1, d1, root, sz', v) ==
              if v >= Up(sz') then None else if v >= Up(sz) then Some(ZeroPage()) else PageView(t0, d0, root, sz, v)
      ensures Rights(t1, root, sz', v) ==
              if v >= Up(sz') then None else if v >= Up(sz) then Some(Access(perm.r, perm.w, perm.x))
              else Rights(t0, root, sz, v)
    {
      KeptPage(t0, u0, d0, d1, root, sz, v);
      UpIs(sz, v);
      UpIs(sz', v);
      if Up(sz) <= v < Up(sz') {
        assert GrownAt(t0, u0, t1, root, v, perm);
      }
    }
  }

  lemma ShrunkSpace(t0: Tables, u0: Uses, d: Contents, t1: Tables, u1: Uses, root: nat, sz: nat, sz': nat,
                    access: Access)
    requires TopOk(t0, u0) && IsRoot(t0, u0, root) && Bounded(t0, root, sz) && sz' <= sz && Up(sz) <= TRAPFRAME
    requires Removed(t0, u0, t1, u1, root, Up(sz'), Up(sz)) && Freed(u0, u1, root, Up(sz'), Up(sz))
    ensures Resized(t0, d, t1, d, root, sz, sz', access) && Bounded(t1, root, sz') && TopOk(t1, u1)
    ensures Only(t0, u0, t1, u1, root) && OthersSee(t0, u0, d, t1, d, root) && TopSame(t0, t1, root)
  {
    hide Lookup;
    hide IsRoot;
    forall v: nat | v < TRAPFRAME
      ensures PageView(t1, d, root, sz', v) == if v >= Up(sz') then None else PageView(t0, d, root, sz, v)
      ensures Rights(t1, root, sz', v) == if v >= Up(sz') then None else Rights(t0, root, sz, v)
    {
      UpIs(sz, v);
      UpIs(sz', v);
    }
  }

  lemma SameResized(t0: Tables, u0: Uses, d0: Contents, t1: Tables, d1: Contents, root: nat, sz: nat, access: Access)
    requires AllSee(t0, u0, d0, t1, d1, root, sz) && Resized(t0, d0, t0, d0, root, sz, sz, access)
    ensures Resized(t0, d0, t1, d1, root, sz, sz, access)
  {
    hide PageView;
    hide Rights;
  }

  lemma Unmapped(t: Tables, root: nat, sz: nat)
    requires Bounded(t, root, sz)
    ensures forall v: nat :: Up(sz) <= v < TRAPFRAME ==> !Lookup(t, root, v).v
  {
  }

  /** growproc. A shrink by more than the size wraps around to a size that is
      not smaller, and changes nothing. */
  method Growproc(vm: Vm, root: nat, sz: nat, n: Int32) returns (ok: bool, sz': nat)
    requires Space(vm, root, sz)
    modifies vm
    ensures Space(vm, root, sz') && Only(old(vm.tables), old(vm.use), vm.tables, vm.use, root)
    ensures TopSame(old(vm.tables), vm.tables, root)
    ensures OthersSee(old(vm.tables), old(vm.use), old(vm.data), vm.tables, vm.data, root)
    ensures Resized(old(vm.tables), old(vm.data), vm.tables, vm.data, root, sz, sz', ReadWrite)
    ensures sz' == if ok && sz + n >= 0 then sz + n else sz
    ensures n <= 0 ==> ok
    ensures n > 0 && sz + n > TRAPFRAME * PGSIZE ==> !ok
    ensures n > 0 && sz + n <= TRAPFRAME * PGSIZE && !ok ==> |old(vm.free)| < PERPAGE * (Up(sz + n) - Up(sz))
  {
    hide TablesOk;
    hide FreeOk;
    hide LeavesOk;
    hide Lookup;
    hide IsRoot;
    hide TopOk;
    hide Only;
    hide OthersSee;
    hide Resized;
    hide DataOk;
    hide Removed;
    hide Freed;
    hide Bounded;
    hide TopSame;
    ghost var t0, u0, d0 := vm.tables, vm.use, vm.data;
    RemovedEmpty(t0, u0, root, Up(sz));
    ShrunkSpace(t0, u0, d0, t0, u0, root, sz, sz, ReadWrite);
    if n > 0 {
      if sz + n > TRAPFRAME * PGSIZE {
        return false, sz;
      }
      Unmapped(t0, root, sz);
      sz' := vm.Uvmalloc(root, sz, sz + n, UserRw);
      if sz' == 0 {
        SameSeen(t0, u0, d0, vm.tables, vm.use, vm.data, root, sz);
        SameResized(t0, u0, d0, vm.tables, vm.data, root, sz, ReadWrite);
        return false, sz;
      }
      GrewKept(t0, u0, vm.tables, vm.use, root, sz, sz + n, UserRw);
      GrewSeen(t0, u0, d0, vm.tables, vm.use, vm.data, root, sz, sz + n, UserRw);
      return true, sz';
    } else if n < 0 {
      sz' := vm.Uvmdealloc(root, sz, (sz + n) % 0x1_0000_0000_0000_0000);
      ShrunkSpace(t0, u0, d0, vm.tables, vm.use, root, sz, sz', ReadWrite);
      return true, sz';
    }
    return true, sz;
  }

  lemma LazySpace(t: Tables, u: Uses, d: Contents, root: nat, sz: nat, sz': nat, access: Access)
    requires TopOk(t, u) && IsRoot(t, u, root) && Bounded(t, root, sz) && sz <= sz' && Up(sz') <= TRAPFRAME
             && (sz == sz' || access == ReadWrite)
    ensures Resized(t, d, t, d, root, sz, sz', access) && Bounded(t, root, sz') && Only(t, u, t, u, root)
            && OthersSee(t, u, d, t, d, root)
    ensures TopSame(t, t, root)
  {
    hide Lookup;
    hide IsRoot;
    forall v: nat | v < TRAPFRAME
      ensures PageView(t, d, root, sz', v) == if v >= Up(sz') then None else if v >= Up(sz) then Some(ZeroPage())
              else PageView(t, d, root, sz, v)
      ensures Rights(t, root, sz', v) ==
              if v >= Up(sz') then None else if v >= Up(sz) then Some(access) else Rights(t, root, sz, v)
    {
      UpIs(sz, v);
      UpIs(sz', v);
    }
  }

  /** sys_sbrk: the user cannot tell eager growth from lazy growth. */
  method Sbrk(vm: Vm, root: nat, sz: nat, n: Int32, eager: bool) returns (ok: bool, sz': nat)
    requires Space(vm, root, sz)
    modifies vm
    ensures Space(vm, root, sz') && Only(old(vm.tables), old(vm.use), vm.tables, vm.use, root)
    ensures TopSame(old(vm.tables), vm.tables, root)
    ensures OthersSee(old(vm.tables), old(vm.use), old(vm.data), vm.tables, vm.data, root)
    ensures Resized(old(vm.tables), old(vm.data), vm.tables, vm.data, root, sz, sz', ReadWrite)
    ensures sz' == if ok && sz + n >= 0 then sz + n else sz
    ensures n > 0 && sz + n > TRAPFRAME * PGSIZE ==> !ok
    ensures n <= 0 || (!eager && sz + n <= TRAPFRAME * PGSIZE) ==> ok
    ensures n > 0 && sz + n <= TRAPFRAME * PGSIZE && !ok ==> |old(vm.free)| < PERPAGE * (Up(sz + n) - Up(sz))
  {
    hide TablesOk;
    hide FreeOk;
    hide LeavesOk;
    hide Lookup;
    hide IsRoot;
    hide TopOk;
    hide Only;
    hide OthersSee;
    hide Resized;
    hide DataOk;
    hide Bounded;
    hide TopSame;
    if eager || n < 0 {
      ok, sz' := Growproc(vm, root, sz, n);
    } else if sz + n > TRAPFRAME * PGSIZE {
      LazySpace(vm.tables, vm.use, vm.data, root, sz, sz, ReadWrite);
      ok, sz' := false, sz;
    } else {
      LazySpace(vm.tables, vm.use, vm.data, root, sz, sz + n, ReadWrite);
      ok, sz' := true, sz + n;
    }
  }

  lemma FreshSpace(t0: Tables, u0: Uses, t1: Tables, u1: Uses, root: nat, child: nat, sz: nat, trampoline: nat,
                   trapframe: nat)
    requires IsRoot(t0, u0, root) && !IsRoot(t0, u0, child) && Bounded(t0, root, sz) && OthersMap(t0, u0, t1, u1, child)
    requires Fresh(t1, child, trampoline, trapframe)
    ensures root != child && IsRoot(t1, u1, root) && Bounded(t1, root, sz)
    ensures forall s: nat :: Bounded(t1, child, s)
    ensures forall v: nat :: v < TRAPFRAME ==> !Lookup(t1, child, v).v
    ensures forall d: Contents, s: nat, v: nat :: PageView(t1, d, root, s, v) == PageView(t0, d, root, s, v)
    ensures forall s: nat, v: nat :: Rights(t1, root, s, v) == Rights(t0, root, s, v)
  {
    hide Lookup;
    hide IsRoot;
  }

  lemma CopiedOnly(t0: Tables, u0: Uses, t1: Tables, u1: Uses, src: nat, dst: nat, sz: nat)
    requires Copied(t0, u0, t1, u1, src, dst, Up(sz)) && IsRoot(t0, u0, src) && IsRoot(t0, u0, dst) && src != dst
             && TopOk(t0, u0)
    requires Bounded(t0, src, sz) && Bounded(t0, dst, sz) && Up(sz) <= TRAPFRAME
    ensures Only(t0, u0, t1, u1, dst) && Bounded(t1, src, sz) && Bounded(t1, dst, sz) && TopOk(t1, u1)
            && TopSame(t0, t1, dst)
    ensures IsRoot(t1, u1, src) && IsRoot(t1, u1, dst)
  {
    hide Lookup;
    hide IsRoot;
  }

  lemma SameOnly(t0: Tables, u0: Uses, t1: Tables, u1: Uses, root: nat)
    requires SameMap(t0, u0, t1, u1) && Took(u0, u1, root)
    ensures Only(t0, u0, t1, u1, root) && (IsRoot(t0, u0, root) ==> TopSame(t0, t1, root))
    ensures forall s: nat :: IsRoot(t0, u0, root) && Bounded(t0, root, s) ==> Bounded(t1, root, s)
  {
    hide Lookup;
    hide IsRoot;
  }

  /** Every byte of the child is the parent's, and what it may do there. */
  ghost predicate Twins(t0: Tables, d0: Contents, t1: Tables, d1: Contents, parent: nat, child: nat, sz: nat) {
    forall v: nat ::
      && PageView(t1, d1, child, sz, v) == PageView(t0, d0, parent, sz, v) == PageView(t1, d1, parent, sz, v)
      && Rights(t1, child, sz, v) == Rights(t0, parent, sz, v)
  }

  /** What a process can ask of its memory. */
  datatype Request =
    | SbrkRequest(n: Int32, eager: bool)
    | Fault(va: nat)
    | Store(va: nat, bytes: seq<Byte>)
    | Load(va: nat, len: nat)

  datatype Answer = Answer(ok: bool, bytes: seq<Byte>)

  /** What the answer to a request means, by what the process saw and could do before and
      after it and by the number of free pages. */
  ghost predicate Answered(request: Request, a: Answer, t0: Tables, d0: Contents, free: nat, t1: Tables, d1: Contents,
                           free': nat, root: nat, sz: nat, sz': nat)
  {
    match request
    case SbrkRequest(n, eager) =>
      && Resized(t0, d0, t1, d1, root, sz, sz', ReadWrite) && sz' == (if a.ok && sz + n >= 0 then sz + n else sz)
      && (n > 0 && sz + n > TRAPFRAME * PGSIZE ==> !a.ok)
      && (!a.ok ==>
            n > 0 && (sz + n > TRAPFRAME * PGSIZE || (eager && free < PERPAGE * (Up(sz + n) - Up(sz)))))
    case Fault(va) =>
      && sz' == sz && SeesSame(t0, d0, t1, d1, root, sz)
      && (a.ok ==> va < sz && Lookup(t1, root, va / PGSIZE).v && !Lookup(t0, root, va / PGSIZE).v)
      && (!a.ok ==> va >= sz || Lookup(t0, root, va / PGSIZE).v || free' <= 1)
    case Store(va, bytes) =>
      sz' == sz && exists done: nat ::
        && done <= |bytes| && (a.ok <==> done == |bytes|) && Written(t0, d0, t1, d1, root, sz, va, bytes, done)
        && (!a.ok ==> !Writable(t0, root, sz, va + done) || free' <= 1)
    case Load(va, len) =>
      && sz' == sz && SeesSame(t0, d0, t1, d1, root, sz) && Seen(t0, d0, root, sz, va, a.bytes)
      && |a.bytes| <= len && (a.ok <==> |a.bytes| == len)
      && (!a.ok ==> View(t0, d0, root, sz, va + |a.bytes|).None? || free' <= 1)
  }

  ghost predicate SeesSame(t0: Tables, d0: Contents, t1: Tables, d1: Contents, root: nat, sz: nat) {
    forall a: nat :: View(t1, d1, root, sz, a) == View(t0, d0, root, sz, a)
  }

  lemma AllSight(t0: Tables, u0: Uses, d0: Contents, t1: Tables, d1: Contents, root: nat, sz: nat)
    requires AllSee(t0, u0, d0, t1, d1, root, sz)
    ensures SeesSame(t0, d0, t1, d1, root, sz)
  {
    hide PageView;
  }

  method Serve(vm: Vm, root: nat, sz: nat, request: Request) returns (sz': nat, answer: Answer)
    requires Space(vm, root, sz)
    modifies vm
    ensures Answered(request, answer, old(vm.tables), old(vm.data), |old(vm.free)|, vm.tables, vm.data, |vm.free|,
                     root, sz, sz')
    ensures Space(vm, root, sz') && Only(old(vm.tables), old(vm.use), vm.tables, vm.use, root)
    ensures TopSame(old(vm.tables), vm.tables, root)
    ensures OthersSee(old(vm.tables), old(vm.use), old(vm.data), vm.tables, vm.data, root)
  {
    hide TablesOk;
    hide FreeOk;
    hide LeavesOk;
    hide DataOk;
    hide Lookup;
    hide IsRoot;
    hide TopOk;
    hide Only;
    hide OthersSee;
    hide Bounded;
    hide TopSame;
    hide Resized;
    hide Written;
    hide Writable;
    hide View;
    hide PageView;
    ghost var t0, u0, d0 := vm.tables, vm.use, vm.data;
    sz' := sz;
    match request
    case SbrkRequest(n, eager) =>
      var ok;
      ok, sz' := Sbrk(vm, root, sz, n, eager);
      answer := Answer(ok, []);
    case Fault(va) =>
      var ok := Vmfault(vm, root, sz, va);
      AllSight(t0, u0, d0, vm.tables, vm.data, root, sz);
      answer := Answer(ok, []);
    case Store(va, bytes) =>
      var ok, done := Copyout(vm, root, sz, va, bytes);
      answer := Answer(ok, []);
    case Load(va, len) =>
      var ok, bytes := Copyin(vm, root, sz, va, len);
      answer := Answer(ok, bytes);
  }

  lemma SameViews(t0: Tables, u0: Uses, t1: Tables, u1: Uses, d: Contents)
    requires SameMap(t0, u0, t1, u1)
    ensures forall r: nat, s: nat, v: nat :: IsRoot(t0, u0, r) ==> PageView(t1, d, r, s, v) == PageView(t0, d, r, s, v)
  {
    hide Lookup;
    hide IsRoot;
  }

  lemma FreshStart(t0: Tables, u0: Uses, d: Contents, t1: Tables, u1: Uses, root: nat, trampoline: nat, trapframe: nat)
    requires Only(t0, u0, t1, u1, root) && Fresh(t1, root, trampoline, trapframe)
    ensures Bounded(t1, root, 0) && OthersSee(t0, u0, d, t1, d, root)
  {
    hide Lookup;
    hide IsRoot;
  }

  lemma MapViews(t0: Tables, u0: Uses, t1: Tables, u1: Uses, t2: Tables, u2: Uses, d0: Contents, d1: Contents,
                 root: nat)
    requires OthersSee(t0, u0, d0, t1, d1, root) && OthersMap(t1, u1, t2, u2, root) && Only(t0, u0, t1, u1, root)
             && !IsRoot(t0, u0, root)
    ensures forall r: nat, s: nat, v: nat :: IsRoot(t0, u0, r) ==>
              PageView(t2, d1, r, s, v) == PageView(t0, d0, r, s, v)
  {
    hide Lookup;
    hide IsRoot;
    forall r: nat, s: nat, v: nat | IsRoot(t0, u0, r)
      ensures PageView(t2, d1, r, s, v) == PageView(t1, d1, r, s, v)
    {
    }
  }
}
