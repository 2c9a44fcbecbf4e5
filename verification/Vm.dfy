/** kernel/vm.c over kernel/kalloc.c: walking, mapping and unmapping pages,
    growing, copying and freeing address spaces. Physical pages are known by
    number; `use` records what each allocatable page is used for. */
module Vm {
  import opened Base
  import opened PageTable

  const PGSIZE := 4096
  type Page = s: seq<Byte> | |s| == PGSIZE witness seq(PGSIZE, _ => 0)

  function ZeroPage(): (r: Page) {
    seq(PGSIZE, _ => 0)
  }

  /** The free list holds exactly the free pages, each once. */
  ghost predicate FreeOk(free: seq<nat>, use: Uses) {
    && (forall i, j :: 0 <= i < j < |free| ==> free[i] != free[j])
    && (forall p :: p in free <==> p in use && use[p].Free?)
  }

  /** User pages: each mapped page of each address space has its own physical
      page, and each such physical page is mapped where it says. */
  ghost predicate LeavesOk(tables: Tables, use: Uses) {
    && (forall root: nat, vpn: nat :: IsRoot(tables, use, root) && vpn < TRAPFRAME && Lookup(tables, root, vpn).v ==>
          Lookup(tables, root, vpn).ppn in use && use[Lookup(tables, root, vpn).ppn] == Leaf(root, vpn))
    && (forall p :: p in use && use[p].Leaf? ==> LeafAt(tables, use, p))
  }

  ghost predicate LeafAt(tables: Tables, use: Uses, p: nat)
    requires p in use && use[p].Leaf?
  {
    && use[p].vpn < TRAPFRAME && IsRoot(tables, use, use[p].root)
    && Lookup(tables, use[p].root, use[p].vpn).v && Lookup(tables, use[p].root, use[p].vpn).ppn == p
  }

  ghost predicate DataOk(data: map<nat, Page>, use: Uses) {
    forall p :: p in use && use[p].Leaf? ==> p in data
  }

  /** Free pages may have become table pages of one address space; nothing else
      changed its use. */
  ghost predicate Took(use: Uses, use': Uses, root: nat) {
    && use'.Keys == use.Keys
    && forall p :: p in use && use'[p] != use[p] ==> use[p].Free? && use'[p].Table? && use'[p].root == root
  }

  /** A table or user page of one address space. */
  ghost predicate Ours(x: Use, root: nat) {
    (x.Table? || x.Leaf?) && x.root == root
  }

  /** Only free pages and pages of one address space changed their use, and
      they are still free or its own. */
  ghost predicate Within(use: Uses, use': Uses, root: nat) {
    && use'.Keys == use.Keys
    && forall p :: p in use && use'[p] != use[p] ==>
         (use[p].Free? || Ours(use[p], root)) && (use'[p].Free? || Ours(use'[p], root))
  }

  /** Every other address space has the flat map it had. */
  ghost predicate OthersMap(t0: Tables, u0: Uses, t1: Tables, u1: Uses, root: nat) {
    && (forall r: nat :: r != root ==> (IsRoot(t0, u0, r) <==> IsRoot(t1, u1, r)))
    && (forall r: nat, v: nat :: r != root && IsRoot(t0, u0, r) && v < NVPN ==> Lookup(t1, r, v) == Lookup(t0, r, v))
  }

  /** One address space may have changed, no other has. */
  ghost predicate Only(t0: Tables, u0: Uses, t1: Tables, u1: Uses, root: nat) {
    OthersMap(t0, u0, t1, u1, root) && Within(u0, u1, root)
  }

  lemma OnlyTrans(t0: Tables, u0: Uses, t1: Tables, u1: Uses, t2: Tables, u2: Uses, root: nat)
    requires Only(t0, u0, t1, u1, root) && Only(t1, u1, t2, u2, root)
    ensures Only(t0, u0, t2, u2, root)
  {
    hide Lookup;
    hide IsRoot;
    forall r: nat, v: nat | r != root && IsRoot(t0, u0, r) && v < NVPN
      ensures Lookup(t2, r, v) == Lookup(t1, r, v)
    {
    }
  }

  lemma TookLeaves(tables: Tables, use: Uses, tables': Tables, use': Uses, root: nat)
    requires LeavesOk(tables, use) && SameMap(tables, use, tables', use') && Took(use, use', root)
    ensures LeavesOk(tables', use')
  {
    hide Lookup;
    hide IsRoot;
    forall p | p in use' && use'[p].Leaf?
      ensures LeafAt(tables', use', p)
    {
      assert LeafAt(tables, use, p);
    }
  }

  class Vm {
    var tables: Tables
    var free: seq<nat>
    /** Contents of the user pages. */
    var data: map<nat, Page>
    ghost var use: Uses

    ghost predicate Valid()
      reads this
    {
      TablesOk(tables, use) && FreeOk(free, use) && LeavesOk(tables, use) && DataOk(data, use)
    }

    /** kinit: the pages from lo to hi are freed one by one. */
    constructor (lo: nat, hi: nat)
      requires lo <= hi
      ensures Valid() && tables == map[] && |free| == hi - lo && |use| == hi - lo
      ensures (forall p :: p in use <==> lo <= p < hi) && forall p :: p in use ==> use[p].Free?
    {
      tables, free, data, use := map[], [], map[], map[];
      new;
      var p := lo;
      while p < hi
        invariant lo <= p <= hi && tables == map[] && data == map[] && FreeOk(free, use)
        invariant (forall q :: q in use <==> lo <= q < p) && (forall q :: q in use ==> use[q].Free?)
        invariant |free| == p - lo && |use| == p - lo
      {
        free := [p] + free;
        use := use[p := Free];
        p := p + 1;
      }
    }

    /** kalloc: the head of the free list. */
    method Kalloc() returns (res: Option<nat>)
      requires FreeOk(free, use)
      modifies this`free, this`use
      ensures res.None? <==> old(free) == []
      ensures res.None? ==> free == old(free) && use == old(use)
      ensures res.Some? ==>
                && res.value in old(use) && old(use)[res.value].Free? && use == old(use)[res.value := Held]
                && FreeOk(free, use) && old(free) == [res.value] + free
    {
      if free == [] {
        return None;
      }
      res := Some(free[0]);
      use := use[free[0] := Held];
      free := free[1..];
    }

    /** kfree of a page that is not free: the panics and a double free are out
        of reach for pages this model hands out. */
    method Kfree(p: nat)
      requires FreeOk(free, use) && p in use && !use[p].Free?
      modifies this`free, this`use
      ensures free == [p] + old(free) && use == old(use)[p := Free] && FreeOk(free, use)
    {
      free := [p] + free;
      use := use[p := Free];
    }

    /** walk: the place of the entry for a virtual page, adding table pages on
        the way when asked to. No flat map changes. */
    method Walk(root: nat, vpn: nat, alloc: bool) returns (loc: Option<(nat, nat)>)
      requires TablesOk(tables, use) && FreeOk(free, use) && IsRoot(tables, use, root) && vpn < NVPN
      modifies this`tables, this`free, this`use
      ensures TablesOk(tables, use) && FreeOk(free, use)
      ensures Took(old(use), use, root) && SameMap(old(tables), old(use), tables, use)
      ensures loc.Some? ==>
                && IsTable(tables, use, loc.value.0, root, 0, Prefix(0, vpn)) && loc.value.1 == Px(0, vpn)
                && tables[loc.value.0][loc.value.1] == Lookup(tables, root, vpn)
      ensures loc.None? ==> !Lookup(tables, root, vpn).v && (alloc ==> free == [] && |old(free)| < 2)
      ensures |free| + 2 >= |old(free)|
      ensures !alloc ==> tables == old(tables) && free == old(free) && use == old(use)
    {
      hide EntriesOk;
      hide ParentOk;
      hide Lookup;
      hide SameMap;
      hide FreeOk;
      var p, level := root, 2;
      SameMapRefl(tables, use);
      while level > 0
        invariant 0 <= level <= 2
        invariant TablesOk(tables, use) && FreeOk(free, use) && IsRoot(tables, use, root)
        invariant IsTable(tables, use, p, root, level, Prefix(level, vpn))
        invariant Took(old(use), use, root) && SameMap(old(tables), old(use), tables, use)
        invariant |free| + 2 - level >= |old(free)|
        invariant !alloc ==> tables == old(tables) && free == old(free) && use == old(use)
      {
        var i := Px(level, vpn);
        PrefixStep(level, vpn);
        if tables[p][i].v {
          ChildTable(tables, use, p, i);
          p := tables[p][i].ppn;
        } else {
          if !alloc {
            LookupMissing(tables, use, p, root, level, vpn);
            return None;
          }
          ghost var tables1, use1 := tables, use;
          var n := AddTable(p, i, root, level, Prefix(level, vpn));
          SameMapTrans(old(tables), old(use), tables1, use1, tables, use);
          if n.None? {
            LookupMissing(tables, use, p, root, level, vpn);
            return None;
          }
          SameMapRoot(old(tables), old(use), tables, use, root);
          p := n.value;
        }
        level := level - 1;
      }
      LookupAt(tables, use, p, root, vpn);
      loc := Some((p, Px(0, vpn)));
    }

    /** walk's allocating branch. */
    method AddTable(p: nat, i: nat, ghost root: nat, ghost level: nat, ghost x: nat) returns (n: Option<nat>)
      requires TablesOk(tables, use) && FreeOk(free, use) && IsTable(tables, use, p, root, level, x) && 0 < level <= 2
      requires i < NPTE && !tables[p][i].v && InRange(level - 1, x * 512 + i)
      modifies this`tables, this`free, this`use
      ensures TablesOk(tables, use) && FreeOk(free, use)
      ensures n.None? ==> old(free) == free == [] && tables == old(tables) && use == old(use)
      ensures n.Some? ==> IsTable(tables, use, n.value, root, level - 1, x * 512 + i) && |free| + 1 == |old(free)|
      ensures n.Some? ==> n.value in old(use) && old(use)[n.value].Free?
                          && use == old(use)[n.value := Table(root, level - 1, x * 512 + i, p)]
      ensures SameMap(old(tables), old(use), tables, use)
    {
      hide EntriesOk;
      hide ParentOk;
      hide Lookup;
      hide SameMap;
      SameMapRefl(tables, use);
      n := Kalloc();
      if n.Some? {
        ghost var use0 := old(use);
        LinkTables(tables, use0, p, i, n.value, root, level, x);
        LinkMap(tables, use0, p, i, n.value, root, level, x);
        tables := tables[n.value := ZeroTable()];
        tables := SetEntry(tables, p, i, Pte(true, false, false, false, false, n.value));
        use := use[n.value := Table(root, level - 1, x * 512 + i, p)];
        assert use == use0[n.value := Table(root, level - 1, x * 512 + i, p)];
      }
    }

    /** One turn of mappages' loop. */
    method MapOne(root: nat, a: nat, e: Pte) returns (res: MapResult)
      requires TablesOk(tables, use) && FreeOk(free, use) && IsRoot(tables, use, root) && a < NVPN && LevelZero(e)
      modifies this`tables, this`free, this`use
      ensures TablesOk(tables, use) && FreeOk(free, use) && IsRoot(tables, use, root) && Took(old(use), use, root)
      ensures res == Mapped ==> !Lookup(old(tables), root, a).v && PutAt(old(tables), old(use), tables, use, root, a, e)
      ensures res != Mapped ==> SameMap(old(tables), old(use), tables, use)
      ensures res == NoMemory ==> free == [] && |old(free)| < 2 && !Lookup(old(tables), root, a).v
      ensures |free| + 2 >= |old(free)|
      ensures res == Remap ==> Lookup(old(tables), root, a).v
    {
      hide EntriesOk;
      hide ParentOk;
      hide Lookup;
      hide SameMap;
      hide FreeOk;
      hide PutAt;
      var loc := Walk(root, a, true);
      SameMapRoot(old(tables), old(use), tables, use, root);
      SameMapAt(old(tables), old(use), tables, use, root, a);
      if loc.None? {
        return NoMemory;
      }
      var (p, i) := loc.value;
      if tables[p][i].v {
        return Remap;
      }
      SetLeafTables(tables, use, p, i, e, root, Prefix(0, a));
      PutAtEntry(old(tables), old(use), tables, use, root, a, p, i, e);
      tables := SetEntry(tables, p, i, e);
      res := Mapped;
    }

    /** mappages. `perm` carries the flags. On failure the pages before `done`
        stay mapped. */
    method Mappages(root: nat, vpn: nat, n: nat, ppn: nat, perm: Pte) returns (res: MapResult, done: nat)
      requires TablesOk(tables, use) && FreeOk(free, use) && IsRoot(tables, use, root) && 0 < n && vpn + n <= NVPN
               && IsLeaf(perm)
      modifies this`tables, this`free, this`use
      ensures TablesOk(tables, use) && FreeOk(free, use) && Took(old(use), use, root)
      ensures done <= n && (res == Mapped <==> done == n)
      ensures Inserted(old(tables), old(use), tables, use, root, vpn, done, ppn, perm)
      ensures res == NoMemory ==> free == [] && |old(free)| < 2 * n
      ensures |free| + 2 * n >= |old(free)|
      ensures res == Remap ==> Lookup(old(tables), root, vpn + done).v
      ensures forall v :: vpn <= v < vpn + done ==> !Lookup(old(tables), root, v).v
    {
      hide TablesOk;
      hide Lookup;
      hide SameMap;
      hide FreeOk;
      hide Inserted;
      hide PutAt;
      done := 0;
      InsertedNone(tables, use, root, vpn, ppn, perm);
      while done < n
        invariant 0 <= done <= n
        invariant TablesOk(tables, use) && FreeOk(free, use) && IsRoot(tables, use, root) && Took(old(use), use, root)
        invariant Inserted(old(tables), old(use), tables, use, root, vpn, done, ppn, perm)
        invariant forall v :: vpn <= v < vpn + done ==> !Lookup(old(tables), root, v).v
        invariant |free| + 2 * done >= |old(free)|
      {
        ghost var tables1, use1 := tables, use;
        InsertedBeyond(old(tables), old(use), tables, use, root, vpn, done, ppn, perm, vpn + done);
        res := MapOne(root, vpn + done, perm.(v := true, ppn := ppn + done));
        if res != Mapped {
          InsertedSame(old(tables), old(use), tables1, use1, tables, use, root, vpn, done, ppn, perm);
          return;
        }
        InsertedMore(old(tables), old(use), tables1, use1, tables, use, root, vpn, done, ppn, perm);
        done := done + 1;
      }
      res := Mapped;
    }

    /** One turn of uvmunmap's loop with do_free set. */
    method UnmapOne(root: nat, a: nat)
      requires Valid() && IsRoot(tables, use, root) && a < TRAPFRAME
      modifies this`tables, this`free, this`use
      ensures Valid() && IsRoot(tables, use, root)
      ensures Removed(old(tables), old(use), tables, use, root, a, a + 1) && Freed(old(use), use, root, a, a + 1)
    {
      hide TablesOk;
      hide Lookup;
      hide SameMap;
      hide PutAt;
      hide Removed;
      hide Freed;
      hide LeavesOk;
      var loc := Walk(root, a, false);
      if loc.None? || !tables[loc.value.0][loc.value.1].v {
        RemovedNone(tables, use, root, a);
        return;
      }
      var (p, i) := loc.value;
      var pa := tables[p][i].ppn;
      SetLeafTables(tables, use, p, i, ZeroPte, root, Prefix(0, a));
      SameMapRefl(tables, use);
      PutAtEntry(tables, use, tables, use, root, a, p, i, ZeroPte);
      LeafDropped(tables, use, SetEntry(tables, p, i, ZeroPte), root, a, pa);
      RemovedOne(tables, use, SetEntry(tables, p, i, ZeroPte), use[pa := Free], root, a);
      Kfree(pa);
      tables := SetEntry(tables, p, i, ZeroPte);
    }

    /** uvmunmap with do_free set, as user memory is always unmapped. */
    method Uvmunmap(root: nat, vpn: nat, n: nat)
      requires Valid() && IsRoot(tables, use, root) && vpn + n <= TRAPFRAME
      modifies this`tables, this`free, this`use
      ensures Valid() && IsRoot(tables, use, root)
      ensures Removed(old(tables), old(use), tables, use, root, vpn, vpn + n)
              && Freed(old(use), use, root, vpn, vpn + n)
    {
      hide TablesOk;
      hide FreeOk;
      hide LeavesOk;
      hide DataOk;
      hide Removed;
      hide Freed;
      hide IsRoot;
      RemovedEmpty(tables, use, root, vpn);
      var a := vpn;
      while a < vpn + n
        invariant vpn <= a <= vpn + n
        invariant Valid() && IsRoot(tables, use, root)
        invariant Removed(old(tables), old(use), tables, use, root, vpn, a) && Freed(old(use), use, root, vpn, a)
      {
        ghost var tables1, use1 := tables, use;
        UnmapOne(root, a);
        RemovedTrans(old(tables), old(use), tables1, use1, tables, use, root, vpn, a, a + 1);
        a := a + 1;
      }
    }

    /** One turn of uvmalloc's and of uvmcopy's loop: a page of its own with the
        given contents at page a. */
    method AddPage(root: nat, a: nat, perm: Pte, contents: Page) returns (ok: bool)
      requires Valid() && IsRoot(tables, use, root) && a < TRAPFRAME && IsLeaf(perm) && !Lookup(tables, root, a).v
      modifies this`tables, this`free, this`use, this`data
      ensures Valid() && IsRoot(tables, use, root) && KeepsData(old(use), old(data), data)
      ensures ok ==> Grew(old(tables), old(use), tables, use, root, a, a + 1, perm)
      ensures ok ==> Lookup(tables, root, a).ppn in data && data[Lookup(tables, root, a).ppn] == contents
      ensures !ok ==> SameMap(old(tables), old(use), tables, use) && Took(old(use), use, root) && |free| <= 1
      ensures if ok then |free| + PERPAGE >= |old(free)| else |old(free)| < PERPAGE
    {
      hide TablesOk;
      hide Lookup;
      hide SameMap;
      hide PutAt;
      hide Inserted;
      hide LeavesOk;
      hide Grew;
      hide IsRoot;
      hide FreeOk;
      hide DataOk;
      hide KeepsData;
      hide Took;
      ghost var t0, u0, d0 := tables, use, data;
      SameMapRefl(tables, use);
      TookRefl(use, root);
      KeepsAll(u0, d0);
      var mem := Kalloc();
      if mem.None? {
        return false;
      }
      var p := mem.value;
      ghost var u1 := use;
      Retag(t0, u0, p, Held);
      SameMapRoot(t0, u0, t0, u1, root);
      data := data[p := contents];
      var res, done := Mappages(root, a, 1, p, perm);
      InsertedIs(t0, u1, tables, use, root, a, done, p, perm);
      PageHeld(u0, use, d0, p, contents, root, a);
      if res != Mapped {
        assert done == 0;
        ghost var u2 := use;
        Kfree(p);
        ReleasePage(t0, u0, u1, tables, u2, p, root);
        SameMapRoot(t0, u0, tables, use, root);
        return false;
      }
      var e := perm.(v := true, ppn := p);
      LeafAdded(t0, u1, tables, use, root, a, e);
      GrewOne(t0, u0, u1, tables, use, root, a, e, perm);
      GrewRoot(t0, u0, tables, use[p := Leaf(root, a)], root, a, a + 1, perm, root);
      FreeStays(free, use, p, Leaf(root, a));
      use := use[p := Leaf(root, a)];
      ok := true;
    }

    /** uvmdealloc. */
    method Uvmdealloc(root: nat, oldsz: nat, newsz: nat) returns (sz: nat)
      requires Valid() && IsRoot(tables, use, root) && Up(oldsz) <= TRAPFRAME
      modifies this`tables, this`free, this`use
      ensures sz == if newsz < oldsz then newsz else oldsz
      ensures Valid() && IsRoot(tables, use, root)
      ensures var from := if newsz < oldsz then Up(newsz) else Up(oldsz);
              Removed(old(tables), old(use), tables, use, root, from, Up(oldsz))
                && Freed(old(use), use, root, from, Up(oldsz))
    {
      hide TablesOk;
      hide FreeOk;
      hide LeavesOk;
      hide DataOk;
      hide Removed;
      hide Freed;
      hide IsRoot;
      RemovedEmpty(tables, use, root, Up(oldsz));
      if newsz >= oldsz {
        return oldsz;
      }
      if Up(newsz) < Up(oldsz) {
        Uvmunmap(root, Up(newsz), Up(oldsz) - Up(newsz));
      }
      sz := newsz;
    }

    /** uvmalloc: either every page from oldsz to newsz is mapped to a zeroed
        page of its own, or every flat map is exactly as before and every
        physical page is free again but for table pages. The pages must not be
        mapped yet; mappages panics otherwise. Nor may they reach the trapframe,
        unless memory runs out before they do. */
    method Uvmalloc(root: nat, oldsz: nat, newsz: nat, perm: Pte) returns (sz: nat)
      requires Valid() && IsRoot(tables, use, root) && IsLeaf(perm)
      requires Up(newsz) <= TRAPFRAME || Crowded(tables, use, root, Up(oldsz))
      requires forall v: nat :: Up(oldsz) <= v < Up(newsz) && v < TRAPFRAME ==> !Lookup(tables, root, v).v
      modifies this`tables, this`free, this`use, this`data
      ensures Valid() && IsRoot(tables, use, root) && KeepsData(old(use), old(data), data)
      ensures newsz < oldsz ==> sz == oldsz && tables == old(tables) && use == old(use) && data == old(data)
                                && free == old(free)
      ensures newsz >= oldsz ==> sz == newsz || sz == 0
      ensures newsz >= oldsz && sz != 0 ==>
                && Grew(old(tables), old(use), tables, use, root, Up(oldsz), Up(newsz), perm)
                && ZeroPages(tables, data, root, Up(oldsz), Up(newsz)) && Up(newsz) <= TRAPFRAME
      ensures newsz >= oldsz && sz == 0 ==> SameMap(old(tables), old(use), tables, use) && Took(old(use), use, root)
      ensures newsz >= oldsz && sz == newsz ==> |free| + PERPAGE * (Up(newsz) - Up(oldsz)) >= |old(free)|
      ensures newsz >= oldsz && sz != newsz ==> |old(free)| < PERPAGE * (Up(newsz) - Up(oldsz))
    {
      hide TablesOk;
      hide FreeOk;
      hide LeavesOk;
      hide DataOk;
      hide SameMap;
      hide Removed;
      hide Freed;
      hide IsRoot;
      hide Grew;
      hide Lookup;
      hide Took;
      hide Crowded;
      SameMapRefl(tables, use);
      TookRefl(use, root);
      if newsz < oldsz {
        return oldsz;
      }
      var from := Up(oldsz);
      var a := from;
      UpMono(oldsz, newsz);
      GrewNone(tables, use, root, from, perm);
      Below(tables, use, root, from, newsz);
      while a * PGSIZE < newsz
        invariant from <= a <= TRAPFRAME && (a == from || a <= Up(newsz))
        invariant a * PGSIZE < newsz ==> a < TRAPFRAME
        invariant a == from ==> tables == old(tables) && use == old(use)
        invariant Valid() && IsRoot(tables, use, root) && KeepsData(old(use), old(data), data)
        invariant Grew(old(tables), old(use), tables, use, root, from, a, perm)
                  && ZeroPages(tables, data, root, from, a)
        invariant |free| + PERPAGE * (a - from) >= |old(free)|
        decreases newsz - a * PGSIZE
      {
        ghost var t1, u1, d1 := tables, use, data;
        GrewBeyond(old(tables), old(use), tables, use, root, from, a, perm, a);
        var ok := AddPage(root, a, perm, ZeroPage());
        GrewKeeps(old(use), u1, d1, data, old(tables), t1, root, from, a, perm, old(data));
        if !ok {
          ghost var t2, u2 := tables, use;
          Uvmunmap(root, from, a - from);
          RollBack(old(tables), old(use), t1, u1, t2, u2, tables, use, root, from, a, perm);
          return 0;
        }
        ZeroMore(old(tables), old(use), t1, u1, tables, use, d1, data, root, from, a, perm);
        GrewMore(old(tables), old(use), t1, u1, tables, use, root, from, a, perm);
        a := a + 1;
        BelowMore(old(tables), old(use), tables, use, root, from, a, newsz, perm);
      }
      sz := newsz;
    }

    /** uvmcopy: either the child's pages below sz are copies of the parent's,
        same flags and contents on physical pages of their own, or every flat
        map is as before. Unmapped parent pages stay unmapped. */
    method Uvmcopy(src: nat, dst: nat, sz: nat) returns (ok: bool)
      requires Valid() && IsRoot(tables, use, src) && IsRoot(tables, use, dst) && src != dst && Up(sz) <= TRAPFRAME
      requires forall v: nat :: v < Up(sz) ==> !Lookup(tables, dst, v).v
      modifies this`tables, this`free, this`use, this`data
      ensures Valid() && IsRoot(tables, use, src) && IsRoot(tables, use, dst) && KeepsData(old(use), old(data), data)
      ensures ok ==> Copied(old(tables), old(use), tables, use, src, dst, Up(sz))
      ensures ok ==> SameContents(tables, data, src, dst, Up(sz))
      ensures !ok ==> SameMap(old(tables), old(use), tables, use) && Took(old(use), use, dst)
      ensures if ok then |free| + PERPAGE * Up(sz) >= |old(free)| else |old(free)| < PERPAGE * Up(sz)
    {
      hide TablesOk;
      hide FreeOk;
      hide LeavesOk;
      hide DataOk;
      hide SameMap;
      hide Removed;
      hide Freed;
      hide IsRoot;
      hide Grew;
      hide Copied;
      hide Lookup;
      hide Took;
      ghost var t0, u0 := tables, use;
      CopiedNone(tables, use, src, dst);
      var v := 0;
      while v * PGSIZE < sz
        invariant 0 <= v <= Up(sz)
        invariant Valid() && IsRoot(tables, use, src) && IsRoot(tables, use, dst) && KeepsData(u0, old(data), data)
        invariant Copied(t0, u0, tables, use, src, dst, v) && SameContents(tables, data, src, dst, v)
        invariant |free| + PERPAGE * v >= |old(free)|
        decreases sz - v * PGSIZE
      {
        ghost var t1, u1, d1 := tables, use, data;
        CopiedElsewhere(t0, u0, tables, use, src, dst, v);
        var loc := Walk(src, v, false);
        if loc.None? || !tables[loc.value.0][loc.value.1].v {
          CopiedSkip(t0, u0, tables, use, src, dst, v);
          v := v + 1;
          continue;
        }
        var e := tables[loc.value.0][loc.value.1];
        UserPage(tables, use, data, src, v);
        var ok1 := AddPage(dst, v, e, data[e.ppn]);
        CopiedKeeps(t0, u0, t1, u1, old(data), d1, data, src, dst, v);
        if !ok1 {
          ghost var t2, u2 := tables, use;
          Uvmunmap(dst, 0, v);
          CopyBack(t0, u0, t1, u1, t2, u2, tables, use, src, dst, v);
          RemovedRoot(t2, u2, tables, use, dst, 0, v, src);
          SameMapRoot(t1, u1, t2, u2, src);
          return false;
        }
        GrewRoot(t1, u1, tables, use, dst, v, v + 1, e, src);
        ContentsMore(t0, u0, t1, u1, tables, use, d1, data, src, dst, v, e);
        CopiedMore(t0, u0, t1, u1, tables, use, src, dst, v, e);
        v := v + 1;
      }
      ok := true;
    }
  }

  /** Pages below n of dst copy those of src; all else is mapped as it was. */
  ghost predicate Copied(tables: Tables, use: Uses, tables': Tables, use': Uses, src: nat, dst: nat, n: nat) {
    && (forall r: nat :: IsRoot(tables, use, r) <==> IsRoot(tables', use', r))
    && (forall r: nat, v: nat :: IsRoot(tables, use, r) && v < NVPN && !(r == dst && v < n) ==>
          Lookup(tables', r, v) == Lookup(tables, r, v))
    && (forall v: nat :: v < n && v < NVPN ==> CopiedAt(tables, use, tables', src, dst, v))
    && use'.Keys == use.Keys
    && (forall p :: p in use && use'[p] != use[p] ==>
          use[p].Free? && (use'[p].Table? || (use'[p].Leaf? && use'[p].vpn < n)) && use'[p].root == dst)
  }

  /** The child's page exists when the parent's does, with the parent's flags
      and on a physical page that was free. */
  ghost predicate CopiedAt(tables: Tables, use: Uses, tables': Tables, src: nat, dst: nat, v: nat) {
    var e, f := Lookup(tables, src, v), Lookup(tables', dst, v);
    !Lookup(tables, dst, v).v && if e.v then f.v && SameFlags(f, e) && f.ppn in use && use[f.ppn].Free? else !f.v
  }

  ghost predicate SameContents(tables: Tables, data: map<nat, Page>, src: nat, dst: nat, n: nat) {
    forall v: nat :: v < n && Lookup(tables, src, v).v ==>
      && Lookup(tables, src, v).ppn in data && Lookup(tables, dst, v).ppn in data
      && data[Lookup(tables, dst, v).ppn] == data[Lookup(tables, src, v).ppn]
  }

  lemma CopiedNone(tables: Tables, use: Uses, src: nat, dst: nat)
    ensures Copied(tables, use, tables, use, src, dst, 0) && SameContents(tables, map[], src, dst, 0)
  {
    hide Lookup;
    hide IsRoot;
  }

  lemma CopiedElsewhere(t0: Tables, u0: Uses, t1: Tables, u1: Uses, src: nat, dst: nat, v: nat)
    requires Copied(t0, u0, t1, u1, src, dst, v) && src != dst && v < NVPN && IsRoot(t1, u1, src) && IsRoot(t1, u1, dst)
    ensures Lookup(t1, src, v) == Lookup(t0, src, v) && Lookup(t1, dst, v) == Lookup(t0, dst, v)
  {
    hide Lookup;
    hide IsRoot;
  }

  lemma CopiedSkip(t0: Tables, u0: Uses, t1: Tables, u1: Uses, src: nat, dst: nat, v: nat)
    requires Copied(t0, u0, t1, u1, src, dst, v) && v < NVPN && src != dst && IsRoot(t1, u1, src) && IsRoot(t1, u1, dst)
    requires !Lookup(t1, src, v).v && !Lookup(t0, dst, v).v
    ensures Copied(t0, u0, t1, u1, src, dst, v + 1)
  {
    hide Lookup;
    hide IsRoot;
    CopiedElsewhere(t0, u0, t1, u1, src, dst, v);
  }

  /** A mapped user page has contents. */
  lemma UserPage(tables: Tables, use: Uses, data: map<nat, Page>, root: nat, v: nat)
    requires LeavesOk(tables, use) && DataOk(data, use) && TablesOk(tables, use) && IsRoot(tables, use, root)
             && v < TRAPFRAME && Lookup(tables, root, v).v
    ensures Lookup(tables, root, v).ppn in data && Lookup(tables, root, v).ppn in use
            && use[Lookup(tables, root, v).ppn] == Leaf(root, v)
    ensures IsLeaf(Lookup(tables, root, v))
  {
    hide Lookup;
    hide IsRoot;
    hide TablesOk;
    LookupZero(tables, use, root, v);
  }

  lemma CopiedKeeps(t0: Tables, u0: Uses, t1: Tables, u1: Uses, d0: map<nat, Page>, d1: map<nat, Page>, d2: map<nat,
                    Page>, src: nat, dst: nat, n: nat)
    requires Copied(t0, u0, t1, u1, src, dst, n) && KeepsData(u0, d0, d1) && KeepsData(u1, d1, d2)
    ensures KeepsData(u0, d0, d2)
  {
    hide Lookup;
    hide IsRoot;
  }

  lemma CopiedMore(t0: Tables, u0: Uses, t1: Tables, u1: Uses, t2: Tables, u2: Uses, src: nat, dst: nat, v: nat, e: Pte)
    requires Copied(t0, u0, t1, u1, src, dst, v) && Grew(t1, u1, t2, u2, dst, v, v + 1, e) && src != dst && v < NVPN
    requires e == Lookup(t1, src, v) && e.v && IsRoot(t1, u1, src) && IsRoot(t1, u1, dst)
    ensures Copied(t0, u0, t2, u2, src, dst, v + 1)
  {
    hide Lookup;
    hide IsRoot;
    CopiedElsewhere(t0, u0, t1, u1, src, dst, v);
    forall w: nat | w < v + 1 && w < NVPN
      ensures CopiedAt(t0, u0, t2, src, dst, w)
    {
      if w < v {
        assert CopiedAt(t0, u0, t1, src, dst, w);
      } else {
        assert GrownAt(t1, u1, t2, dst, v, e);
      }
    }
  }

  lemma ContentsMore(t0: Tables, u0: Uses, t1: Tables, u1: Uses, t2: Tables, u2: Uses, d1: map<nat, Page>, d2: map<nat,
                     Page>, src: nat, dst: nat, v: nat, e: Pte)
    requires SameContents(t1, d1, src, dst, v) && Grew(t1, u1, t2, u2, dst, v, v + 1, e) && KeepsData(u1, d1, d2)
             && Copied(t0, u0, t1, u1, src, dst, v)
    requires LeavesOk(t1, u1) && DataOk(d1, u1) && IsRoot(t1, u1, src) && IsRoot(t1, u1, dst) && src != dst
             && v < TRAPFRAME
    requires e == Lookup(t1, src, v) && e.v && e.ppn in d1
    requires Lookup(t2, dst, v).ppn in d2 && d2[Lookup(t2, dst, v).ppn] == d1[e.ppn]
    ensures SameContents(t2, d2, src, dst, v + 1)
  {
    hide Lookup;
    hide IsRoot;
    forall w: nat | w < v + 1 && Lookup(t2, src, w).v
      ensures Lookup(t2, src, w).ppn in d2 && Lookup(t2, dst, w).ppn in d2
              && d2[Lookup(t2, dst, w).ppn] == d2[Lookup(t2, src, w).ppn]
    {
      assert Lookup(t2, src, w) == Lookup(t1, src, w);
      if w < v {
        assert Lookup(t2, dst, w) == Lookup(t1, dst, w);
        assert CopiedAt(t0, u0, t1, src, dst, w);
        assert u1[Lookup(t1, dst, w).ppn] == Leaf(dst, w);
      }
    }
  }

  lemma RemovedRoot(t0: Tables, u0: Uses, t1: Tables, u1: Uses, root: nat, from: nat, to: nat, r: nat)
    requires Removed(t0, u0, t1, u1, root, from, to)
    ensures IsRoot(t0, u0, r) <==> IsRoot(t1, u1, r)
  {
    hide Lookup;
    hide IsRoot;
  }

  /** Undoing a partial copy restores every flat map. */
  lemma CopyBack(t0: Tables, u0: Uses, t1: Tables, u1: Uses, t2: Tables, u2: Uses, t3: Tables, u3: Uses, src: nat,
                 dst: nat, n: nat)
    requires TablesOk(t0, u0) && LeavesOk(t0, u0) && IsRoot(t0, u0, dst) && n <= TRAPFRAME
    requires Copied(t0, u0, t1, u1, src, dst, n) && SameMap(t1, u1, t2, u2) && Took(u1, u2, dst)
    requires Removed(t2, u2, t3, u3, dst, 0, n) && Freed(u2, u3, dst, 0, n)
    ensures SameMap(t0, u0, t3, u3) && Took(u0, u3, dst)
  {
    hide Lookup;
    hide IsRoot;
    hide TablesOk;
    forall r: nat, v: nat | IsRoot(t0, u0, r) && v < NVPN
      ensures Lookup(t3, r, v) == Lookup(t0, r, v)
    {
      assert Lookup(t3, r, v) == if r == dst && v < n then ZeroPte else Lookup(t2, r, v);
      if r == dst && v < n {
        assert CopiedAt(t0, u0, t1, src, dst, v);
        LookupZero(t0, u0, dst, v);
      }
    }
    forall p | p in u0 && u0[p].Leaf? && u0[p].root == dst
      ensures !(u0[p].vpn < n)
    {
      NotThere(t0, u0, t1, u1, src, dst, n, u0[p].vpn);
      assert LeafAt(t0, u0, p);
    }
  }

  /** Pages that were copied to were not mapped. */
  lemma NotThere(t0: Tables, u0: Uses, t1: Tables, u1: Uses, src: nat, dst: nat, n: nat, v: nat)
    requires Copied(t0, u0, t1, u1, src, dst, n)
    ensures v < n && v < NVPN ==> !Lookup(t0, dst, v).v
  {
    hide Lookup;
    hide IsRoot;
    if v < n && v < NVPN {
      assert CopiedAt(t0, u0, t1, src, dst, v);
    }
  }

  lemma TookRefl(use: Uses, root: nat)
    ensures Took(use, use, root)
  {
  }

  /** Every page below n is mapped, in a machine with fewer physical pages than
      there are virtual ones below the trapframe. */
  ghost predicate Crowded(tables: Tables, use: Uses, root: nat, n: nat) {
    |use| < TRAPFRAME && forall v: nat :: v < n ==> Lookup(tables, root, v).v
  }

  /** Mapped pages have physical pages of their own. */
  lemma {:induction false} OwnPages(tables: Tables, use: Uses, root: nat, n: nat) returns (pages: set<nat>)
    requires LeavesOk(tables, use) && IsRoot(tables, use, root) && n <= TRAPFRAME
    requires forall v: nat :: v < n ==> Lookup(tables, root, v).v
    ensures |pages| == n && pages <= use.Keys
    ensures forall p :: p in pages ==> use[p].Leaf? && use[p].vpn < n
  {
    hide Lookup;
    hide IsRoot;
    hide LeafAt;
    if n == 0 {
      return {};
    }
    pages := OwnPages(tables, use, root, n - 1);
    pages := pages + {Lookup(tables, root, n - 1).ppn};
  }

  /** So a crowded space ends below the trapframe. */
  lemma CrowdedEnd(tables: Tables, use: Uses, root: nat, n: nat)
    requires LeavesOk(tables, use) && IsRoot(tables, use, root) && Crowded(tables, use, root, n)
    ensures n < TRAPFRAME
  {
    hide Lookup;
    hide IsRoot;
    hide LeavesOk;
    var k := if n < TRAPFRAME then n else TRAPFRAME;
    var pages := OwnPages(tables, use, root, k);
    SubsetCount(pages, use.Keys);
  }

  lemma Below(tables: Tables, use: Uses, root: nat, from: nat, newsz: nat)
    requires LeavesOk(tables, use) && IsRoot(tables, use, root)
    requires (Up(newsz) <= TRAPFRAME && from <= Up(newsz)) || Crowded(tables, use, root, from)
    ensures from <= TRAPFRAME && (from * PGSIZE < newsz ==> from < TRAPFRAME)
  {
    hide LeavesOk;
    hide Crowded;
    if Crowded(tables, use, root, from) {
      CrowdedEnd(tables, use, root, from);
    }
  }

  lemma BelowMore(t0: Tables, u0: Uses, t1: Tables, u1: Uses, root: nat, from: nat, a: nat, newsz: nat, perm: Pte)
    requires LeavesOk(t1, u1) && IsRoot(t0, u0, root) && IsRoot(t1, u1, root)
             && Grew(t0, u0, t1, u1, root, from, a, perm) && from <= a <= TRAPFRAME
    requires (Up(newsz) <= TRAPFRAME && a <= Up(newsz)) || Crowded(t0, u0, root, from)
    ensures a * PGSIZE < newsz ==> a < TRAPFRAME
  {
    hide Lookup;
    hide IsRoot;
    hide LeavesOk;
    if Crowded(t0, u0, root, from) {
      forall v: nat | v < a
        ensures Lookup(t1, root, v).v
      {
        assert v >= from ==> GrownAt(t0, u0, t1, root, v, perm);
      }
      assert u1.Keys == u0.Keys;
      CrowdedEnd(t1, u1, root, a);
    }
  }

  ghost predicate ZeroPages(tables: Tables, data: map<nat, Page>, root: nat, from: nat, to: nat) {
    forall v: nat :: from <= v < to ==>
      Lookup(tables, root, v).ppn in data && data[Lookup(tables, root, v).ppn] == ZeroPage()
  }

  lemma GrewNone(tables: Tables, use: Uses, root: nat, from: nat, perm: Pte)
    ensures Grew(tables, use, tables, use, root, from, from, perm)
  {
    hide Lookup;
    hide IsRoot;
  }

  lemma GrewBeyond(t0: Tables, u0: Uses, t1: Tables, u1: Uses, root: nat, from: nat, to: nat, perm: Pte, v: nat)
    requires Grew(t0, u0, t1, u1, root, from, to, perm) && to <= v < NVPN && IsRoot(t1, u1, root)
    ensures Lookup(t1, root, v) == Lookup(t0, root, v)
  {
    hide Lookup;
    hide IsRoot;
  }

  lemma GrewKeeps(u0: Uses, u1: Uses, d1: map<nat, Page>, d2: map<nat, Page>, t0: Tables, t1: Tables, root: nat,
                  from: nat, to: nat, perm: Pte, d0: map<nat, Page>)
    requires Grew(t0, u0, t1, u1, root, from, to, perm) && KeepsData(u0, d0, d1) && KeepsData(u1, d1, d2)
    ensures KeepsData(u0, d0, d2)
  {
    hide Lookup;
    hide IsRoot;
  }

  lemma ZeroMore(t0: Tables, u0: Uses, t1: Tables, u1: Uses, t2: Tables, u2: Uses, d1: map<nat, Page>, d2: map<nat,
                 Page>, root: nat, from: nat, a: nat, perm: Pte)
    requires ZeroPages(t1, d1, root, from, a) && Grew(t1, u1, t2, u2, root, a, a + 1, perm) && KeepsData(u1, d1, d2)
    requires LeavesOk(t1, u1) && IsRoot(t1, u1, root) && a < TRAPFRAME
    requires Grew(t0, u0, t1, u1, root, from, a, perm)
    requires Lookup(t2, root, a).ppn in d2 && d2[Lookup(t2, root, a).ppn] == ZeroPage()
    ensures ZeroPages(t2, d2, root, from, a + 1)
  {
    hide Lookup;
    hide IsRoot;
    forall v: nat | from <= v < a
      ensures Lookup(t2, root, v).ppn in d2 && d2[Lookup(t2, root, v).ppn] == ZeroPage()
    {
      assert GrownAt(t0, u0, t1, root, v, perm);
      assert Lookup(t1, root, v).ppn in d1;
      assert u1[Lookup(t1, root, v).ppn] == Leaf(root, v);
    }
  }

  lemma GrewMore(t0: Tables, u0: Uses, t1: Tables, u1: Uses, t2: Tables, u2: Uses, root: nat, from: nat, a: nat,
                 perm: Pte)
    requires Grew(t0, u0, t1, u1, root, from, a, perm) && Grew(t1, u1, t2, u2, root, a, a + 1, perm)
    requires from <= a < NVPN && IsRoot(t0, u0, root)
    ensures Grew(t0, u0, t2, u2, root, from, a + 1, perm)
  {
    hide Lookup;
    hide IsRoot;
    forall v: nat | from <= v < a + 1 && v < NVPN
      ensures GrownAt(t0, u0, t2, root, v, perm)
    {
      if v < a {
        assert GrownAt(t0, u0, t1, root, v, perm);
      } else {
        assert GrownAt(t1, u1, t2, root, v, perm);
      }
    }
  }

  /** Undoing a partial growth restores every flat map. */
  lemma RollBack(t0: Tables, u0: Uses, t1: Tables, u1: Uses, t2: Tables, u2: Uses, t3: Tables, u3: Uses, root: nat,
                 from: nat, a: nat, perm: Pte)
    requires TablesOk(t0, u0) && LeavesOk(t0, u0) && IsRoot(t0, u0, root) && a <= TRAPFRAME
    requires Grew(t0, u0, t1, u1, root, from, a, perm) && SameMap(t1, u1, t2, u2) && Took(u1, u2, root)
    requires Removed(t2, u2, t3, u3, root, from, a) && Freed(u2, u3, root, from, a)
    ensures SameMap(t0, u0, t3, u3) && Took(u0, u3, root)
  {
    hide Lookup;
    hide IsRoot;
    hide TablesOk;
    forall r: nat, v: nat | IsRoot(t0, u0, r) && v < NVPN
      ensures Lookup(t3, r, v) == Lookup(t0, r, v)
    {
      assert Lookup(t3, r, v) == if r == root && from <= v < a then ZeroPte else Lookup(t2, r, v);
      if r == root && from <= v < a {
        assert GrownAt(t0, u0, t1, root, v, perm);
        LookupZero(t0, u0, root, v);
      }
    }
    forall p | p in u0 && u0[p].Leaf? && u0[p].root == root
      ensures !(from <= u0[p].vpn < a)
    {
      NotGrown(t0, u0, t1, u1, root, from, a, perm, u0[p].vpn);
      assert LeafAt(t0, u0, p);
    }
  }

  /** Pages that were added were not mapped. */
  lemma NotGrown(t0: Tables, u0: Uses, t1: Tables, u1: Uses, root: nat, from: nat, a: nat, perm: Pte, v: nat)
    requires Grew(t0, u0, t1, u1, root, from, a, perm)
    ensures from <= v < a && v < NVPN ==> !Lookup(t0, root, v).v
  {
    hide Lookup;
    hide IsRoot;
    if from <= v < a && v < NVPN {
      assert GrownAt(t0, u0, t1, root, v, perm);
    }
  }

  /** PGROUNDUP(sz) / PGSIZE */
  function Up(sz: nat): (n: nat) {
    (sz + PGSIZE - 1) / PGSIZE
  }

  lemma UpMono(a: nat, b: nat)
    requires a <= b
    ensures Up(a) <= Up(b)
  {
  }

  /** A page takes at most two table pages with it. */
  const PERPAGE: nat := 3

  predicate SameFlags(e: Pte, f: Pte) {
    e.r == f.r && e.w == f.w && e.x == f.x && e.u == f.u
  }

  ghost predicate KeepsData(use: Uses, data: map<nat, Page>, data': map<nat, Page>) {
    forall p :: p in use && use[p].Leaf? && p in data ==> p in data' && data'[p] == data[p]
  }

  /** Pages from .. to of one address space are mapped to pages that were free;
      all else is mapped as it was. */
  ghost predicate Grew(tables: Tables, use: Uses, tables': Tables, use': Uses, root: nat, from: nat, to: nat,
                       perm: Pte) {
    && (forall r: nat :: IsRoot(tables, use, r) <==> IsRoot(tables', use', r))
    && (forall r: nat, v: nat :: IsRoot(tables, use, r) && v < NVPN && !(r == root && from <= v < to) ==>
          Lookup(tables', r, v) == Lookup(tables, r, v))
    && (forall v: nat :: from <= v < to && v < NVPN ==> GrownAt(tables, use, tables', root, v, perm))
    && use'.Keys == use.Keys
    && (forall p :: p in use && use'[p] != use[p] ==>
          use[p].Free? && (use'[p].Table? || (use'[p].Leaf? && from <= use'[p].vpn < to)) && use'[p].root == root)
  }

  ghost predicate GrownAt(tables: Tables, use: Uses, tables': Tables, root: nat, v: nat, perm: Pte) {
    var e := Lookup(tables', root, v);
    !Lookup(tables, root, v).v && e.v && SameFlags(e, perm) && e.ppn in use && use[e.ppn].Free?
  }

  lemma GrewRoot(tables: Tables, use: Uses, tables': Tables, use': Uses, root: nat, from: nat, to: nat, perm: Pte,
                 r: nat)
    requires Grew(tables, use, tables', use', root, from, to, perm)
    ensures IsRoot(tables, use, r) <==> IsRoot(tables', use', r)
  {
    hide Lookup;
    hide IsRoot;
  }

  lemma KeepsAll(use: Uses, data: map<nat, Page>)
    ensures KeepsData(use, data, data)
  {
  }

  lemma FreeStays(free: seq<nat>, use: Uses, p: nat, x: Use)
    requires FreeOk(free, use) && p in use && !use[p].Free? && !x.Free?
    ensures FreeOk(free, use[p := x])
  {
  }

  /** A page set aside stays so while table pages are added; its contents
      concern nobody yet. */
  lemma PageHeld(u0: Uses, u2: Uses, d: map<nat, Page>, p: nat, contents: Page, root: nat, a: nat)
    requires DataOk(d, u0) && p in u0 && u0[p].Free? && Took(u0[p := Held], u2, root)
    ensures p in u2 && u2[p].Held? && KeepsData(u0, d, d[p := contents])
    ensures DataOk(d[p := contents], u2[p := Free]) && DataOk(d[p := contents], u2[p := Leaf(root, a)])
  {
  }

  /** A page that is in no address space changes its use. */
  lemma Retag(tables: Tables, use: Uses, p: nat, x: Use)
    requires TablesOk(tables, use) && LeavesOk(tables, use) && p in use
    requires !use[p].Table? && !use[p].Leaf? && !x.Table? && !x.Leaf?
    ensures TablesOk(tables, use[p := x]) && LeavesOk(tables, use[p := x])
    ensures SameMap(tables, use, tables, use[p := x])
  {
    hide Lookup;
    hide TablesOk;
    hide IsRoot;
    TablesUse(tables, use, use[p := x]);
    forall q | q in use && use[q].Leaf?
      ensures LeafAt(tables, use[p := x], q)
    {
      assert LeafAt(tables, use, q);
    }
  }

  /** The failing path: the page goes back, table pages may stay. */
  lemma ReleasePage(t0: Tables, u0: Uses, u1: Uses, t2: Tables, u2: Uses, p: nat, root: nat)
    requires LeavesOk(t0, u0) && TablesOk(t2, u2) && p in u0 && u0[p].Free? && u1 == u0[p := Held]
    requires SameMap(t0, u0, t0, u1) && SameMap(t0, u1, t2, u2) && Took(u1, u2, root)
    ensures TablesOk(t2, u2[p := Free]) && LeavesOk(t2, u2[p := Free])
    ensures SameMap(t0, u0, t2, u2[p := Free]) && Took(u0, u2[p := Free], root)
  {
    hide Lookup;
    hide TablesOk;
    hide LeavesOk;
    hide IsRoot;
    assert u2[p].Held?;
    TablesUse(t2, u2, u2[p := Free]);
    SameMapTrans(t0, u0, t0, u1, t2, u2);
    TookLeaves(t0, u0, t2, u2[p := Free], root);
  }

  lemma InsertedIs(t0: Tables, u0: Uses, t1: Tables, u1: Uses, root: nat, a: nat, n: nat, ppn: nat, perm: Pte)
    requires Inserted(t0, u0, t1, u1, root, a, n, ppn, perm)
    ensures n == 0 ==> SameMap(t0, u0, t1, u1)
    ensures n == 1 ==> PutAt(t0, u0, t1, u1, root, a, perm.(v := true, ppn := ppn))
  {
    hide Lookup;
    hide IsRoot;
  }

  lemma GrewOne(t0: Tables, u0: Uses, u1: Uses, t2: Tables, u2: Uses, root: nat, a: nat, e: Pte, perm: Pte)
    requires e.ppn in u0 && u0[e.ppn].Free? && u1 == u0[e.ppn := Held] && SameMap(t0, u0, t0, u1) && e.v
             && SameFlags(e, perm)
    requires PutAt(t0, u1, t2, u2[e.ppn := Leaf(root, a)], root, a, e) && Took(u1, u2, root) && IsRoot(t0, u0, root)
             && a < NVPN
    requires !Lookup(t0, root, a).v
    ensures Grew(t0, u0, t2, u2[e.ppn := Leaf(root, a)], root, a, a + 1, perm)
    ensures Lookup(t2, root, a) == e
  {
    hide Lookup;
    hide IsRoot;
  }

  /** Pages from .. to of one address space are gone; all else is as it was. */
  ghost predicate Removed(tables: Tables, use: Uses, tables': Tables, use': Uses, root: nat, from: nat, to: nat) {
    && (forall r: nat :: IsRoot(tables, use, r) <==> IsRoot(tables', use', r))
    && (forall r: nat, v: nat :: IsRoot(tables, use, r) && v < NVPN ==>
          Lookup(tables', r, v) == if r == root && from <= v < to then ZeroPte else Lookup(tables, r, v))
  }

  /** Their physical pages, and no others, are free again. */
  ghost predicate Freed(use: Uses, use': Uses, root: nat, from: nat, to: nat) {
    && use'.Keys == use.Keys
    && forall p :: p in use ==>
         use'[p] == if use[p].Leaf? && use[p].root == root && from <= use[p].vpn < to then Free else use[p]
  }

  lemma RemovedEmpty(tables: Tables, use: Uses, root: nat, from: nat)
    ensures Removed(tables, use, tables, use, root, from, from) && Freed(use, use, root, from, from)
  {
    hide Lookup;
  }

  lemma RemovedNone(tables: Tables, use: Uses, root: nat, a: nat)
    requires TablesOk(tables, use) && LeavesOk(tables, use) && IsRoot(tables, use, root) && a < TRAPFRAME
             && !Lookup(tables, root, a).v
    ensures Removed(tables, use, tables, use, root, a, a + 1) && Freed(use, use, root, a, a + 1)
  {
    hide Lookup;
    hide TablesOk;
    LookupZero(tables, use, root, a);
    forall p | p in use && use[p].Leaf?
      ensures !(use[p].root == root && use[p].vpn == a)
    {
      assert LeafAt(tables, use, p);
    }
  }

  lemma RemovedOne(t0: Tables, u0: Uses, t1: Tables, u1: Uses, root: nat, a: nat)
    requires LeavesOk(t0, u0) && IsRoot(t0, u0, root) && a < TRAPFRAME && Lookup(t0, root, a).v
    requires PutAt(t0, u0, t1, u1, root, a, ZeroPte) && u1 == u0[Lookup(t0, root, a).ppn := Free]
    ensures Removed(t0, u0, t1, u1, root, a, a + 1) && Freed(u0, u1, root, a, a + 1)
  {
    hide Lookup;
    forall p | p in u0 && u0[p].Leaf? && u0[p].root == root && u0[p].vpn == a
      ensures p == Lookup(t0, root, a).ppn
    {
      assert LeafAt(t0, u0, p);
    }
  }

  lemma RemovedTrans(t0: Tables, u0: Uses, t1: Tables, u1: Uses, t2: Tables, u2: Uses, root: nat, from: nat, mid: nat,
                     to: nat)
    requires Removed(t0, u0, t1, u1, root, from, mid) && Freed(u0, u1, root, from, mid) && from <= mid <= to
    requires Removed(t1, u1, t2, u2, root, mid, to) && Freed(u1, u2, root, mid, to)
    ensures Removed(t0, u0, t2, u2, root, from, to) && Freed(u0, u2, root, from, to)
  {
    hide Lookup;
    hide IsRoot;
    forall r: nat, v: nat | IsRoot(t0, u0, r) && v < NVPN
      ensures Lookup(t2, r, v) == if r == root && mid <= v < to then ZeroPte else Lookup(t1, r, v)
    {
    }
  }

  /** One address space has entry e at page a; all else is as it was. */
  ghost predicate PutAt(tables: Tables, use: Uses, tables': Tables, use': Uses, root: nat, a: nat, e: Pte) {
    && (forall r: nat :: IsRoot(tables, use, r) <==> IsRoot(tables', use', r))
    && (forall r: nat, v: nat :: IsRoot(tables, use, r) && v < NVPN ==>
          Lookup(tables', r, v) == if r == root && v == a then e else Lookup(tables, r, v))
  }

  lemma PutAtEntry(t0: Tables, u0: Uses, t1: Tables, u1: Uses, root: nat, a: nat, p: nat, i: nat, e: Pte)
    requires SameMap(t0, u0, t1, u1) && TablesOk(t1, u1) && a < NVPN && LevelZero(e)
    requires IsTable(t1, u1, p, root, 0, Prefix(0, a)) && i == Px(0, a)
    ensures PutAt(t0, u0, SetEntry(t1, p, i, e), u1, root, a, e)
  {
    hide Lookup;
    hide TablesOk;
    var t2 := SetEntry(t1, p, i, e);
    forall r: nat, v: nat | IsRoot(t0, u0, r) && v < NVPN
      ensures Lookup(t2, r, v) == if r == root && v == a then e else Lookup(t0, r, v)
    {
      SetLeafMap(t1, u1, p, i, e, root, Prefix(0, a), r, v);
    }
  }

  /** A mapped user page leaves its address space. */
  lemma LeafDropped(t0: Tables, u0: Uses, t1: Tables, root: nat, a: nat, p: nat)
    requires LeavesOk(t0, u0) && TablesOk(t1, u0) && PutAt(t0, u0, t1, u0, root, a, ZeroPte)
    requires IsRoot(t0, u0, root) && a < TRAPFRAME && Lookup(t0, root, a).v && Lookup(t0, root, a).ppn == p
    ensures p in u0 && u0[p] == Leaf(root, a)
    ensures LeavesOk(t1, u0[p := Free]) && TablesOk(t1, u0[p := Free])
            && PutAt(t0, u0, t1, u0[p := Free], root, a, ZeroPte)
  {
    hide Lookup;
    hide TablesOk;
    hide IsRoot;
    var u1 := u0[p := Free];
    TablesUse(t1, u0, u1);
    forall q | q in u1 && u1[q].Leaf?
      ensures LeafAt(t1, u1, q)
    {
      assert LeafAt(t0, u0, q);
    }
  }

  /** A fresh page enters an address space. */
  lemma LeafAdded(t0: Tables, u0: Uses, t1: Tables, u1: Uses, root: nat, a: nat, e: Pte)
    requires LeavesOk(t0, u0) && TablesOk(t1, u1) && PutAt(t0, u0, t1, u1, root, a, e) && Took(u0, u1, root)
    requires IsRoot(t0, u0, root) && a < TRAPFRAME && !Lookup(t0, root, a).v && e.v
    requires e.ppn in u0 && u0[e.ppn].Held?
    ensures u1[e.ppn].Held?
    ensures LeavesOk(t1, u1[e.ppn := Leaf(root, a)]) && TablesOk(t1, u1[e.ppn := Leaf(root, a)])
    ensures PutAt(t0, u0, t1, u1[e.ppn := Leaf(root, a)], root, a, e)
  {
    hide Lookup;
    hide TablesOk;
    hide IsRoot;
    var u2 := u1[e.ppn := Leaf(root, a)];
    TablesUse(t1, u1, u2);
    forall q | q in u2 && u2[q].Leaf? && q != e.ppn
      ensures LeafAt(t1, u2, q)
    {
      assert u0[q] == u1[q];
      assert LeafAt(t0, u0, q);
    }
    assert LeafAt(t1, u2, e.ppn);
  }

  datatype MapResult = Mapped | NoMemory | Remap

  /** The flat maps after pages vpn .. vpn + n of one address space have been
      entered, physical pages counting up from ppn. */
  ghost predicate Inserted(tables: Tables, use: Uses, tables': Tables, use': Uses, root: nat, vpn: nat, n: nat,
                           ppn: nat, perm: Pte) {
    && (forall r: nat :: IsRoot(tables, use, r) <==> IsRoot(tables', use', r))
    && (forall r: nat, v: nat :: IsRoot(tables, use, r) && v < NVPN ==>
          Lookup(tables', r, v) == if r == root
            && vpn <= v < vpn + n then perm.(v := true, ppn := ppn + (v - vpn)) else Lookup(tables, r, v))
  }

  lemma InsertedNone(tables: Tables, use: Uses, root: nat, vpn: nat, ppn: nat, perm: Pte)
    ensures Inserted(tables, use, tables, use, root, vpn, 0, ppn, perm)
  {
    hide Lookup;
  }

  lemma InsertedBeyond(t0: Tables, u0: Uses, t1: Tables, u1: Uses, root: nat, vpn: nat, n: nat, ppn: nat, perm: Pte,
                       v: nat)
    requires Inserted(t0, u0, t1, u1, root, vpn, n, ppn, perm) && v < NVPN && v >= vpn + n && IsRoot(t1, u1, root)
    ensures Lookup(t1, root, v) == Lookup(t0, root, v)
  {
    hide Lookup;
  }

  lemma InsertedSame(t0: Tables, u0: Uses, t1: Tables, u1: Uses, t2: Tables, u2: Uses, root: nat, vpn: nat, n: nat,
                     ppn: nat, perm: Pte)
    requires Inserted(t0, u0, t1, u1, root, vpn, n, ppn, perm) && SameMap(t1, u1, t2, u2)
    ensures Inserted(t0, u0, t2, u2, root, vpn, n, ppn, perm)
  {
    hide Lookup;
    hide IsRoot;
    forall r: nat, v: nat | IsRoot(t0, u0, r) && v < NVPN
      ensures Lookup(t2, r, v) == Lookup(t1, r, v)
    {
    }
  }

  lemma InsertedMore(t0: Tables, u0: Uses, t1: Tables, u1: Uses, t2: Tables, u2: Uses, root: nat, vpn: nat, n: nat,
                     ppn: nat, perm: Pte)
    requires Inserted(t0, u0, t1, u1, root, vpn, n, ppn, perm)
    requires PutAt(t1, u1, t2, u2, root, vpn + n, perm.(v := true, ppn := ppn + n))
    ensures Inserted(t0, u0, t2, u2, root, vpn, n + 1, ppn, perm)
  {
    hide Lookup;
    hide IsRoot;
    forall r: nat, v: nat | IsRoot(t0, u0, r) && v < NVPN
      ensures Lookup(t2, r, v) == if r == root
              && v == vpn + n then perm.(v := true, ppn := ppn + n) else Lookup(t1, r, v)
    {
    }
  }

  lemma SameMapAt(t1: Tables, u1: Uses, t2: Tables, u2: Uses, root: nat, v: nat)
    requires SameMap(t1, u1, t2, u2) && IsRoot(t1, u1, root) && v < NVPN
    ensures Lookup(t2, root, v) == Lookup(t1, root, v)
  {
    hide Lookup;
  }

  lemma SameMapRefl(tables: Tables, use: Uses)
    ensures SameMap(tables, use, tables, use)
  {
    hide Lookup;
  }

  lemma SameMapRoot(t1: Tables, u1: Uses, t2: Tables, u2: Uses, root: nat)
    requires SameMap(t1, u1, t2, u2)
    ensures IsRoot(t1, u1, root) <==> IsRoot(t2, u2, root)
  {
    hide Lookup;
  }

  lemma ChildTable(tables: Tables, use: Uses, p: nat, i: nat)
    requires TablesOk(tables, use) && p in tables && i < NPTE && tables[p][i].v && use[p].level > 0
    ensures IsTable(tables, use, tables[p][i].ppn, use[p].root, use[p].level - 1, use[p].prefix * 512 + i)
  {
    hide ParentOk;
    assert EntriesOk(tables, use, p);
  }
}
