/** freewalk, uvmfree and proc_freepagetable: taking an address space apart
    returns every one of its pages. */
module Teardown {
  import opened Base
  import opened PageTable
  import opened Vm
  import opened UserMemory

  function Shrink(x: nat, k: nat): (r: nat) {
    if k == 0 then x else Shrink(x / 512, k - 1)
  }

  /** A table page of this address space whose ancestor at `level` (itself
      counted) has its prefix in [lo, hi). */
  ghost predicate Under(u: Use, root: nat, level: nat, lo: nat, hi: nat) {
    u.Table? && u.root == root && u.level <= level && lo <= Shrink(u.prefix, level - u.level) < hi
  }

  lemma {:induction false} ShrinkStep(x: nat, k: nat)
    ensures Shrink(x, k + 1) == Shrink(x, k) / 512
  {
    if k > 0 {
      ShrinkStep(x / 512, k - 1);
    }
  }

  /** What is below a table page is what is below its 512 entries. */
  lemma UnderChildren(u: Use, root: nat, level: nat, x: nat)
    requires u.Table? && u.level < level
    ensures Under(u, root, level, x, x + 1) <==> Under(u, root, level - 1, x * 512, x * 512 + 512)
  {
    ShrinkStep(u.prefix, level - 1 - u.level);
  }

  /** No page hangs below an empty entry. */
  lemma {:induction false} NothingUnder(tables: Tables, use: Uses, p: nat, root: nat, level: nat, x: nat, i: nat,
                                        q: nat)
    requires TablesOk(tables, use) && IsTable(tables, use, p, root, level, x) && 0 < level <= 2 && i < NPTE
             && !tables[p][i].v
    requires q in use
    ensures !Under(use[q], root, level - 1, x * 512 + i, x * 512 + i + 1)
    decreases if use[q].Table? then 2 - use[q].level else 0
  {
    hide EntriesOk;
    if Under(use[q], root, level - 1, x * 512 + i, x * 512 + i + 1) {
      assert ParentOk(tables, use, q);
      if use[q].level == level - 1 {
        UniqueTable(tables, use, p, use[q].parent, root, level, x);
      } else {
        NothingUnder(tables, use, p, root, level, x, i, use[q].parent);
      }
    }
  }

  ghost function PagesUnder(use: Uses, root: nat, level: nat, lo: nat, hi: nat): (r: set<nat>)
    ensures r <= use.Keys
  {
    set q | q in use && Under(use[q], root, level, lo, hi)
  }

  /** The pages below the first i entries of a table page. */
  ghost function Below(use: Uses, root: nat, level: nat, x: nat, i: nat): (r: set<nat>) {
    if level == 0 then {} else PagesUnder(use, root, level - 1, x * 512, x * 512 + i)
  }

  ghost function Mark(use: Uses, gone: set<nat>): (r: Uses) {
    map q | q in use :: if q in gone then Free else use[q]
  }

  /** No leaf is left below. */
  ghost predicate NoLeaf(tables: Tables, use: Uses, pages: set<nat>) {
    forall q, k :: q in pages && q in use && use[q].Table? && use[q].level == 0 && q in tables && 0 <= k < NPTE
                   && k < |tables[q]| ==>
      !tables[q][k].v
  }

  lemma BelowAll(tables: Tables, use: Uses, p: nat, root: nat, level: nat, x: nat)
    requires TablesOk(tables, use) && IsTable(tables, use, p, root, level, x) && level <= 2
    ensures PagesUnder(use, root, level, x, x + 1) == Below(use, root, level, x, NPTE) + {p}
    ensures p !in Below(use, root, level, x, NPTE)
  {
    hide EntriesOk;
    hide ParentOk;
    forall q | q in use
      ensures q in PagesUnder(use, root, level, x, x + 1) <==> q in Below(use, root, level, x, NPTE) + {p}
    {
      if use[q].Table? && use[q].level < level {
        UnderChildren(use[q], root, level, x);
      } else if q in PagesUnder(use, root, level, x, x + 1) {
        assert q in tables;
        UniqueTable(tables, use, p, q, root, level, x);
      }
    }
  }

  lemma BelowMore(tables: Tables, use: Uses, p: nat, root: nat, level: nat, x: nat, i: nat)
    requires TablesOk(tables, use) && IsTable(tables, use, p, root, level, x) && 0 < level <= 2 && i < NPTE
    ensures Below(use, root, level, x, i + 1) == Below(use, root, level, x, i) +
              PagesUnder(use, root, level - 1, x * 512 + i, x * 512 + i + 1)
    ensures Below(use, root, level, x, i) !! PagesUnder(use, root, level - 1, x * 512 + i, x * 512 + i + 1)
    ensures p !in Below(use, root, level, x, i + 1)
            && Below(use, root, level, x, i + 1) <= PagesUnder(use, root, level, x, x + 1)
    ensures !tables[p][i].v ==> PagesUnder(use, root, level - 1, x * 512 + i, x * 512 + i + 1) == {}
  {
    hide EntriesOk;
    hide ParentOk;
    BelowAll(tables, use, p, root, level, x);
    if !tables[p][i].v {
      forall q | q in use
        ensures !Under(use[q], root, level - 1, x * 512 + i, x * 512 + i + 1)
      {
        NothingUnder(tables, use, p, root, level, x, i, q);
      }
    }
  }

  lemma BelowNone(use: Uses, root: nat, level: nat, x: nat)
    ensures Below(use, root, level, x, 0) == {}
    ensures level == 0 ==> forall i: nat :: Below(use, root, level, x, i) == {}
  {
  }

  /** A valid entry that grants nothing points to a table page. */
  lemma ChildEntry(tables: Tables, use: Uses, p: nat, i: nat)
    requires TablesOk(tables, use) && p in tables && p in use && use[p].Table? && |tables[p]| == NPTE && i < NPTE
    requires tables[p][i].v && !IsLeaf(tables[p][i])
    ensures use[p].level > 0
    ensures IsTable(tables, use, tables[p][i].ppn, use[p].root, use[p].level - 1, use[p].prefix * 512 + i)
  {
    hide ParentOk;
    assert EntriesOk(tables, use, p);
  }

  lemma LeafEntry(tables: Tables, use: Uses, p: nat, i: nat)
    requires TablesOk(tables, use) && p in tables && p in use && use[p].Table? && |tables[p]| == NPTE && i < NPTE
    requires tables[p][i].v && IsLeaf(tables[p][i])
    ensures use[p].level == 0
  {
    hide ParentOk;
    assert EntriesOk(tables, use, p);
  }

  lemma MarkMore(use: Uses, a: set<nat>, b: set<nat>)
    ensures Mark(Mark(use, a), b) == Mark(use, a + b)
  {
  }

  lemma EntryCleared(t: Tables, child: set<nat>, p: nat, entries: seq<Pte>)
    requires p in t && p !in child
    ensures (t - child)[p := entries] - {p} == t - {p} - child
  {
  }

  lemma MinusMore(t: Tables, p: nat, a: set<nat>, b: set<nat>)
    ensures t - {p} - a - b == t - {p} - (a + b)
  {
  }

  /** freewalk: frees every table page from p down, unless a leaf is left, which
      is the panic "freewalk: leaf". `tables0` and `use0` are the state when the
      outermost call began. */
  method Freewalk(vm: Vm, p: nat, ghost tables0: Tables, ghost use0: Uses, ghost root: nat, ghost level: nat,
                  ghost x: nat) returns (panic: bool)
    requires TablesOk(tables0, use0) && IsTable(tables0, use0, p, root, level, x) && level <= 2
    requires FreeOk(vm.free, vm.use) && vm.use.Keys == use0.Keys
    requires forall q :: q in PagesUnder(use0, root, level, x, x + 1) ==>
               q in vm.tables && q in tables0 && vm.tables[q] == tables0[q] && vm.use[q] == use0[q]
    modifies vm`tables, vm`free, vm`use
    ensures panic <==> !NoLeaf(tables0, use0, PagesUnder(use0, root, level, x, x + 1))
    ensures !panic ==>
              && FreeOk(vm.free, vm.use)
              && vm.tables == old(vm.tables) - PagesUnder(use0, root, level, x, x + 1)
              && vm.use == Mark(old(vm.use), PagesUnder(use0, root, level, x, x + 1))
    decreases level
  {
    hide TablesOk;
    hide FreeOk;
    hide PagesUnder;
    hide Below;
    ghost var all := PagesUnder(use0, root, level, x, x + 1);
    BelowAll(tables0, use0, p, root, level, x);
    BelowNone(use0, root, level, x);
    panic := false;
    var i := 0;
    while i < NPTE
      invariant 0 <= i <= NPTE && !panic
      invariant FreeOk(vm.free, vm.use) && p in vm.tables && |vm.tables[p]| == NPTE
      invariant forall j :: i <= j < NPTE ==> vm.tables[p][j] == tables0[p][j]
      invariant Below(use0, root, level, x, i) <= all && p !in Below(use0, root, level, x, i)
      invariant vm.tables - {p} == old(vm.tables) - {p} - Below(use0, root, level, x, i)
      invariant vm.use == Mark(old(vm.use), Below(use0, root, level, x, i))
      invariant NoLeaf(tables0, use0, Below(use0, root, level, x, i))
      invariant level == 0 ==> forall j :: 0 <= j < i ==> !tables0[p][j].v
    {
      var pte := vm.tables[p][i];
      if pte.v && !IsLeaf(pte) {
        ChildEntry(tables0, use0, p, i);
        BelowMore(tables0, use0, p, root, level, x, i);
        ghost var child, t1, u1 := PagesUnder(use0, root, level - 1, x * 512 + i, x * 512 + i + 1), vm.tables, vm.use;
        forall q | q in child
          ensures q in vm.tables && q in tables0 && vm.tables[q] == tables0[q] && vm.use[q] == use0[q]
        {
          assert q in all && q in vm.tables - {p};
        }
        panic := Freewalk(vm, pte.ppn, tables0, use0, root, level - 1, x * 512 + i);
        if panic {
          return;
        }
        ghost var done := Below(use0, root, level, x, i);
        MarkMore(old(vm.use), done, child);
        EntryCleared(t1, child, p, vm.tables[p][i := ZeroPte]);
        MinusMore(old(vm.tables), p, done, child);
        vm.tables := SetEntry(vm.tables, p, i, ZeroPte);
        i := i + 1;
      } else if pte.v {
        LeafEntry(tables0, use0, p, i);
        assert p in all;
        return true;
      } else {
        if level > 0 {
          BelowMore(tables0, use0, p, root, level, x, i);
          assert Below(use0, root, level, x, i + 1) == Below(use0, root, level, x, i);
        } else {
          BelowNone(use0, root, level, x);
        }
        i := i + 1;
      }
    }
    vm.Kfree(p);
    vm.tables := vm.tables - {p};
    assert vm.tables == old(vm.tables) - all;
    assert vm.use == Mark(old(vm.use), all);
  }

  /** The table pages of one address space. */
  ghost function TablePages(use: Uses, root: nat): (r: set<nat>) {
    set q | q in use && use[q].Table? && use[q].root == root
  }

  lemma AllTables(tables: Tables, use: Uses, root: nat)
    requires TablesOk(tables, use) && IsRoot(tables, use, root)
    ensures PagesUnder(use, root, 2, 0, 1) == TablePages(use, root)
  {
    hide EntriesOk;
    forall q | q in use && use[q].Table? && use[q].root == root
      ensures Under(use[q], root, 2, 0, 1)
    {
      assert q in tables;
      assert ParentOk(tables, use, q);
      ShrinkStep(use[q].prefix, 0);
      ShrinkStep(use[q].prefix, 1);
    }
  }

  /** An empty flat map leaves no leaf in any table page. */
  lemma EmptyMapNoLeaf(tables: Tables, use: Uses, root: nat)
    requires TablesOk(tables, use) && IsRoot(tables, use, root)
    requires forall v: nat :: v < NVPN ==> !Lookup(tables, root, v).v
    ensures NoLeaf(tables, use, TablePages(use, root))
  {
    hide EntriesOk;
    hide Lookup;
    forall q, k | q in TablePages(use, root) && use[q].level == 0 && q in tables && 0 <= k < NPTE && k < |tables[q]|
      ensures !tables[q][k].v
    {
      assert ParentOk(tables, use, q);
      var v := use[q].prefix * 512 + k;
      assert Prefix(0, v) == use[q].prefix && Px(0, v) == k;
      LookupAt(tables, use, q, root, v);
    }
  }

  /** One address space has gone; the others are as they were. */
  lemma DropSpace(tables: Tables, use: Uses, root: nat)
    requires TablesOk(tables, use) && LeavesOk(tables, use) && IsRoot(tables, use, root)
    requires forall v: nat :: v < NVPN ==> !Lookup(tables, root, v).v
    ensures var tables', use' := tables - TablePages(use, root), Mark(use, TablePages(use, root));
            && TablesOk(tables', use') && LeavesOk(tables', use') && !IsRoot(tables', use', root)
            && (forall r: nat :: r != root ==> (IsRoot(tables, use, r) <==> IsRoot(tables', use', r)))
            && (forall r: nat, v: nat :: r != root && IsRoot(tables, use, r) && v < NVPN ==>
                  Lookup(tables', r, v) == Lookup(tables, r, v))
  {
    var gone := TablePages(use, root);
    var tables', use' := tables - gone, Mark(use, gone);
    DropTables(tables, use, root);
    hide EntriesOk;
    hide ParentOk;
    forall r: nat, v: nat | r != root && IsRoot(tables, use, r) && v < NVPN
      ensures Lookup(tables', r, v) == Lookup(tables, r, v)
    {
      WalkDown(tables, use, r, v);
    }
    forall p | p in use' && use'[p].Leaf?
      ensures LeafAt(tables', use', p)
    {
      assert LeafAt(tables, use, p);
    }
  }

  lemma DropTables(tables: Tables, use: Uses, root: nat)
    requires TablesOk(tables, use)
    ensures TablesOk(tables - TablePages(use, root), Mark(use, TablePages(use, root)))
  {
    var tables', use' := tables - TablePages(use, root), Mark(use, TablePages(use, root));
    forall q | q in tables'
      ensures EntriesOk(tables', use', q) && ParentOk(tables', use', q)
    {
      assert EntriesOk(tables, use, q) && ParentOk(tables, use, q);
    }
  }

  /** uvmunmap of the trampoline or trapframe page, which are not freed. */
  method UnmapSpecial(vm: Vm, root: nat, a: nat)
    requires vm.Valid() && IsRoot(vm.tables, vm.use, root) && TRAPFRAME <= a < NVPN
    modifies vm`tables, vm`free, vm`use
    ensures vm.Valid() && IsRoot(vm.tables, vm.use, root) && vm.use == old(vm.use) && vm.free == old(vm.free)
    ensures Removed(old(vm.tables), vm.use, vm.tables, vm.use, root, a, a + 1)
  {
    hide TablesOk;
    hide FreeOk;
    hide Lookup;
    hide SameMap;
    hide PutAt;
    ghost var t0 := vm.tables;
    var loc := vm.Walk(root, a, false);
    if loc.None? || !vm.tables[loc.value.0][loc.value.1].v {
      LookupZero(vm.tables, vm.use, root, a);
      return;
    }
    var (p, i) := loc.value;
    SetLeafTables(vm.tables, vm.use, p, i, ZeroPte, root, Prefix(0, a));
    SameMapRefl(vm.tables, vm.use);
    PutAtEntry(vm.tables, vm.use, vm.tables, vm.use, root, a, p, i, ZeroPte);
    vm.tables := SetEntry(vm.tables, p, i, ZeroPte);
    SpecialDropped(t0, vm.tables, vm.use, root, a);
  }

  lemma SpecialDropped(t0: Tables, t1: Tables, use: Uses, root: nat, a: nat)
    requires LeavesOk(t0, use) && PutAt(t0, use, t1, use, root, a, ZeroPte) && TRAPFRAME <= a
    ensures LeavesOk(t1, use) && Removed(t0, use, t1, use, root, a, a + 1)
  {
    hide Lookup;
    hide IsRoot;
    forall p | p in use && use[p].Leaf?
      ensures LeafAt(t1, use, p)
    {
      assert LeafAt(t0, use, p);
    }
  }

  /** The pages of one address space, and no others, are free. */
  ghost predicate Gone(use: Uses, use': Uses, root: nat) {
    && use'.Keys == use.Keys
    && forall p :: p in use ==> use'[p] == if Ours(use[p], root) then Free else use[p]
  }

  /** uvmfree: every page of the address space, table or user page, is free
      afterwards, no page of any other is, and "freewalk: leaf" cannot happen. */
  method Uvmfree(vm: Vm, root: nat, sz: nat) returns (panic: bool)
    requires vm.Valid() && IsRoot(vm.tables, vm.use, root) && Up(sz) <= TRAPFRAME
    requires forall v: nat :: Up(sz) <= v < NVPN ==> !Lookup(vm.tables, root, v).v
    modifies vm`tables, vm`free, vm`use
    ensures !panic && vm.Valid() && !IsRoot(vm.tables, vm.use, root)
    ensures Gone(old(vm.use), vm.use, root) && OthersMap(old(vm.tables), old(vm.use), vm.tables, vm.use, root)
  {
    hide TablesOk;
    hide FreeOk;
    hide LeavesOk;
    hide Lookup;
    hide IsRoot;
    ghost var t0, u0 := vm.tables, vm.use;
    RemovedEmpty(t0, u0, root, 0);
    if sz > 0 {
      vm.Uvmunmap(root, 0, Up(sz));
    }
    ghost var t1, u1 := vm.tables, vm.use;
    AllGone(t0, u0, t1, u1, root, sz);
    EmptyMapNoLeaf(t1, u1, root);
    AllTables(t1, u1, root);
    RootIs(t1, u1, root);
    panic := Freewalk(vm, root, t1, u1, root, 2, 0);
    DropSpace(t1, u1, root);
  }

  lemma RootIs(tables: Tables, use: Uses, root: nat)
    requires IsRoot(tables, use, root) && TablesOk(tables, use)
    ensures IsTable(tables, use, root, root, 2, 0)
    ensures forall q :: q in TablePages(use, root) ==> q in tables
  {
    hide EntriesOk;
    hide ParentOk;
  }

  lemma AllGone(t0: Tables, u0: Uses, t1: Tables, u1: Uses, root: nat, sz: nat)
    requires IsRoot(t0, u0, root) && LeavesOk(t0, u0) && Up(sz) <= TRAPFRAME
    requires forall v: nat :: Up(sz) <= v < NVPN ==> !Lookup(t0, root, v).v
    requires Removed(t0, u0, t1, u1, root, 0, Up(sz)) && Freed(u0, u1, root, 0, Up(sz))
    ensures forall v: nat :: v < NVPN ==> !Lookup(t1, root, v).v
    ensures forall p :: p in u0 ==> u1[p] == if u0[p].Leaf? && u0[p].root == root then Free else u0[p]
    ensures OthersMap(t0, u0, t1, u1, root)
  {
    hide Lookup;
    hide IsRoot;
    forall p | p in u0 && u0[p].Leaf? && u0[p].root == root
      ensures u0[p].vpn < Up(sz)
    {
      assert LeafAt(t0, u0, p);
    }
  }

  /** proc_freepagetable, for an address space with user pages below sz only. */
  method FreePagetable(vm: Vm, root: nat, sz: nat) returns (panic: bool)
    requires vm.Valid() && IsRoot(vm.tables, vm.use, root) && Up(sz) <= TRAPFRAME && Bounded(vm.tables, root, sz)
    modifies vm`tables, vm`free, vm`use
    ensures !panic && vm.Valid() && !IsRoot(vm.tables, vm.use, root)
    ensures Gone(old(vm.use), vm.use, root) && OthersMap(old(vm.tables), old(vm.use), vm.tables, vm.use, root)
  {
    hide TablesOk;
    hide FreeOk;
    hide LeavesOk;
    hide Lookup;
    hide IsRoot;
    ghost var t0 := vm.tables;
    UnmapSpecial(vm, root, TRAMPOLINE);
    ghost var t1 := vm.tables;
    UnmapSpecial(vm, root, TRAPFRAME);
    TopGone(t0, t1, vm.tables, vm.use, root, sz);
    panic := Uvmfree(vm, root, sz);
  }

  lemma TopGone(t0: Tables, t1: Tables, t2: Tables, u: Uses, root: nat, sz: nat)
    requires IsRoot(t0, u, root) && Bounded(t0, root, sz) && Up(sz) <= TRAPFRAME
    requires Removed(t0, u, t1, u, root, TRAMPOLINE, TRAMPOLINE + 1)
             && Removed(t1, u, t2, u, root, TRAPFRAME, TRAPFRAME + 1)
    ensures forall v: nat :: Up(sz) <= v < NVPN ==> !Lookup(t2, root, v).v
    ensures OthersMap(t0, u, t2, u, root)
  {
    hide Lookup;
    hide IsRoot;
    forall v: nat | Up(sz) <= v < NVPN
      ensures !Lookup(t2, root, v).v
    {
      assert Lookup(t2, root, v) == if v == TRAPFRAME then ZeroPte else Lookup(t1, root, v);
      assert Lookup(t1, root, v) == if v == TRAMPOLINE then ZeroPte else Lookup(t0, root, v);
    }
    forall r: nat, v: nat | r != root && IsRoot(t0, u, r) && v < NVPN
      ensures Lookup(t2, r, v) == Lookup(t0, r, v)
    {
      assert Lookup(t2, r, v) == Lookup(t1, r, v);
    }
  }
}
