/** The three-level page tables of kernel/vm.c as values: what each physical
    page is used for, and the flat map from page numbers to entries that the
    tables stand for. */
module PageTable {

  const NPTE := 512
  /** Pages below MAXVA. */
  const NVPN := 67108864
  const TRAMPOLINE := NVPN - 1
  const TRAPFRAME := NVPN - 2

  /** A page table entry: flags and physical page number. */
  datatype Pte = Pte(v: bool, r: bool, w: bool, x: bool, u: bool, ppn: nat)

  predicate IsLeaf(e: Pte) {
    e.r || e.w || e.x
  }

  /** An entry of a level-0 table: a leaf, or all zero. */
  predicate LevelZero(e: Pte) {
    if e.v then IsLeaf(e) else e == ZeroPte
  }

  const ZeroPte := Pte(false, false, false, false, false, 0)

  function ZeroTable(): (t: seq<Pte>)
    ensures |t| == NPTE && forall i :: 0 <= i < NPTE ==> t[i] == ZeroPte
  {
    seq(NPTE, _ => ZeroPte)
  }

  type Tables = map<nat, seq<Pte>>

  /** What a physical page is used for. A table page of level 2, 1 or 0 covers
      the virtual pages that start with `prefix`; `parent` points to it. */
  datatype Use =
    | Free
    | Table(root: nat, level: nat, prefix: nat, parent: nat)
    | Leaf(root: nat, vpn: nat)
    | Held
    /** The trapframe of the process whose page table is root. */
    | Frame(root: nat)

  type Uses = map<nat, Use>

  /** PX(level, va) for the page number vpn of va. */
  function Px(level: nat, vpn: nat): (i: nat)
    requires level <= 2
    ensures i < NPTE
  {
    if level == 2 then vpn / 262144 % 512 else if level == 1 then vpn / 512 % 512 else vpn % 512
  }

  /** The prefix of the table page of this level on the way to vpn. */
  function Prefix(level: nat, vpn: nat): (x: nat)
    requires level <= 2
  {
    if level == 2 then 0 else if level == 1 then vpn / 262144 else vpn / 512
  }

  lemma PrefixStep(level: nat, vpn: nat)
    requires 0 < level <= 2 && vpn < NVPN
    ensures Prefix(level - 1, vpn) == Prefix(level, vpn) * 512 + Px(level, vpn)
    ensures Prefix(level - 1, vpn) / 512 == Prefix(level, vpn) && Prefix(level - 1, vpn) % 512 == Px(level, vpn)
    ensures InRange(level - 1, Prefix(level - 1, vpn))
  {
  }

  ghost predicate IsTable(tables: Tables, use: Uses, p: nat, root: nat, level: nat, prefix: nat) {
    && p in use && use[p].Table? && use[p].root == root && use[p].level == level && use[p].prefix == prefix
    && p in tables && |tables[p]| == NPTE
  }

  /** A table page's entries: above level 0 a valid entry points to the table
      page for its index and grants nothing; at level 0 it is a leaf. */
  ghost predicate EntriesOk(tables: Tables, use: Uses, p: nat)
    requires p in use && use[p].Table? && p in tables && |tables[p]| == NPTE
  {
    forall i :: 0 <= i < NPTE ==>
      if use[p].level == 0 || !tables[p][i].v then LevelZero(tables[p][i])
      else
        && !IsLeaf(tables[p][i])
        && IsTable(tables, use, tables[p][i].ppn, use[p].root, use[p].level - 1, use[p].prefix * 512 + i)
        && use[tables[p][i].ppn].parent == p
  }

  /** Table pages only exist for pages below MAXVA. */
  predicate InRange(level: nat, prefix: nat) {
    level <= 2 && (level == 1 ==> prefix < 256) && (level == 0 ==> prefix < 131072)
  }

  /** A table page other than a root is the one its parent points to. */
  ghost predicate ParentOk(tables: Tables, use: Uses, p: nat)
    requires p in use && use[p].Table?
  {
    && InRange(use[p].level, use[p].prefix)
    && (use[p].level == 2 ==> p == use[p].root && use[p].prefix == 0)
    && (use[p].level < 2 ==>
          && IsTable(tables, use, use[p].parent, use[p].root, use[p].level + 1, use[p].prefix / 512)
          && tables[use[p].parent][use[p].prefix % 512].v && tables[use[p].parent][use[p].prefix % 512].ppn == p)
  }

  ghost predicate TablesOk(tables: Tables, use: Uses) {
    && (forall p :: p in tables <==> p in use && use[p].Table?)
    && (forall p :: p in tables ==> |tables[p]| == NPTE && EntriesOk(tables, use, p) && ParentOk(tables, use, p))
  }

  /** The entry at one level on the way to vpn. */
  ghost function Entry(tables: Tables, p: nat, level: nat, vpn: nat): (e: Pte)
    requires level <= 2
  {
    if p in tables && |tables[p]| == NPTE then tables[p][Px(level, vpn)] else ZeroPte
  }

  /** The flat map: the leaf entry for a virtual page, ZeroPte when there is
      none. */
  ghost function Lookup(tables: Tables, root: nat, vpn: nat): (e: Pte) {
    if !Entry(tables, root, 2, vpn).v || !Middle(tables, root, vpn).v then ZeroPte
    else Entry(tables, Middle(tables, root, vpn).ppn, 0, vpn)
  }

  /** The level-1 entry on the way to vpn. */
  ghost function Middle(tables: Tables, root: nat, vpn: nat): (e: Pte) {
    Entry(tables, Entry(tables, root, 2, vpn).ppn, 1, vpn)
  }

  /** The level-1 and level-0 table pages on the way to vpn. */
  ghost predicate Path(tables: Tables, root: nat, vpn: nat, p1: nat, p0: nat) {
    && Entry(tables, root, 2, vpn).v && Entry(tables, root, 2, vpn).ppn == p1
    && Entry(tables, p1, 1, vpn).v && Entry(tables, p1, 1, vpn).ppn == p0
  }

  ghost predicate IsRoot(tables: Tables, use: Uses, root: nat) {
    IsTable(tables, use, root, root, 2, 0)
  }

  /** Walking down from a root meets exactly the pages recorded for vpn. */
  lemma WalkDown(tables: Tables, use: Uses, root: nat, vpn: nat)
    requires TablesOk(tables, use) && IsRoot(tables, use, root) && vpn < NVPN
    ensures var e2 := Entry(tables, root, 2, vpn);
            e2.v ==>
              && IsTable(tables, use, e2.ppn, root, 1, Prefix(1, vpn)) && !IsLeaf(e2)
              && var e1 := Entry(tables, e2.ppn, 1, vpn);
                 e1.v ==> IsTable(tables, use, e1.ppn, root, 0, Prefix(0, vpn)) && !IsLeaf(e1)
  {
    PrefixStep(2, vpn);
    PrefixStep(1, vpn);
    var e2 := Entry(tables, root, 2, vpn);
    assert EntriesOk(tables, use, root);
    if e2.v {
      assert EntriesOk(tables, use, e2.ppn);
    }
  }

  /** There is one table page per root, level and prefix. */
  lemma {:induction false} UniqueTable(tables: Tables, use: Uses, p: nat, q: nat, root: nat, level: nat, prefix: nat)
    requires TablesOk(tables, use) && level <= 2
    requires IsTable(tables, use, p, root, level, prefix) && IsTable(tables, use, q, root, level, prefix)
    ensures p == q
    decreases 2 - level
  {
    assert ParentOk(tables, use, p) && ParentOk(tables, use, q);
    if level < 2 {
      UniqueTable(tables, use, use[p].parent, use[q].parent, root, level + 1, prefix / 512);
    }
  }

  /** Two states of the tables with the same flat map for every root. */
  ghost predicate SameMap(tables: Tables, use: Uses, tables': Tables, use': Uses) {
    && (forall root: nat :: IsRoot(tables, use, root) <==> IsRoot(tables', use', root))
    && (forall root: nat, vpn: nat :: IsRoot(tables, use, root) && vpn < NVPN ==>
          Lookup(tables', root, vpn) == Lookup(tables, root, vpn))
  }

  /** `*pte = e` on a level-0 entry. */
  function SetEntry(tables: Tables, p: nat, i: nat, e: Pte): (r: Tables)
    requires p in tables && i < |tables[p]|
  {
    tables[p := tables[p][i := e]]
  }

  lemma SetLeafEntries(tables: Tables, use: Uses, p: nat, i: nat, e: Pte, root: nat, x: nat, q: nat)
    requires TablesOk(tables, use) && IsTable(tables, use, p, root, 0, x) && i < NPTE && LevelZero(e) && q in tables
    ensures var tables' := SetEntry(tables, p, i, e);
            |tables'[q]| == NPTE && EntriesOk(tables', use, q)
  {
    hide ParentOk;
    assert EntriesOk(tables, use, q);
  }

  lemma SetLeafParent(tables: Tables, use: Uses, p: nat, i: nat, e: Pte, root: nat, x: nat, q: nat)
    requires TablesOk(tables, use) && IsTable(tables, use, p, root, 0, x) && i < NPTE && q in tables
    ensures ParentOk(SetEntry(tables, p, i, e), use, q)
  {
    hide EntriesOk;
    assert ParentOk(tables, use, q);
  }

  lemma SetLeafTables(tables: Tables, use: Uses, p: nat, i: nat, e: Pte, root: nat, x: nat)
    requires TablesOk(tables, use) && IsTable(tables, use, p, root, 0, x) && i < NPTE && LevelZero(e)
    ensures TablesOk(SetEntry(tables, p, i, e), use)
  {
    hide EntriesOk;
    hide ParentOk;
    var tables' := SetEntry(tables, p, i, e);
    forall q | q in tables'
      ensures |tables'[q]| == NPTE && EntriesOk(tables', use, q) && ParentOk(tables', use, q)
    {
      SetLeafEntries(tables, use, p, i, e, root, x, q);
      SetLeafParent(tables, use, p, i, e, root, x, q);
    }
  }

  /** The leaf entries of two pages below MAXVA, of one address space or of two, are in
      one slot of one table page only if the pages and spaces are the same. */
  lemma SlotsApart(tables: Tables, use: Uses, root: nat, vpn: nat, p1: nat, p0: nat,
                   root': nat, vpn': nat, q1: nat, q0: nat)
    requires TablesOk(tables, use) && IsRoot(tables, use, root) && IsRoot(tables, use, root') && vpn < NVPN
             && vpn' < NVPN
    requires Path(tables, root, vpn, p1, p0) && Path(tables, root', vpn', q1, q0)
    ensures p0 == q0 && Px(0, vpn) == Px(0, vpn') <==> root == root' && vpn == vpn'
  {
    hide EntriesOk;
    hide ParentOk;
    WalkDown(tables, use, root, vpn);
    WalkDown(tables, use, root', vpn');
  }

  lemma TableOfRoot(tables: Tables, use: Uses, p: nat, root: nat, x: nat)
    requires TablesOk(tables, use) && IsTable(tables, use, p, root, 0, x)
    ensures IsRoot(tables, use, root) && x < 131072
  {
    assert ParentOk(tables, use, p);
    assert ParentOk(tables, use, use[p].parent);
    assert ParentOk(tables, use, use[use[p].parent].parent);
  }

  /** Writing one level-0 entry changes the flat map at exactly one page of
      exactly one address space. */
  lemma SetLeafMap(tables: Tables, use: Uses, p: nat, i: nat, e: Pte, root: nat, x: nat, root': nat, vpn: nat)
    requires TablesOk(tables, use) && IsTable(tables, use, p, root, 0, x) && i < NPTE && LevelZero(e)
    requires IsRoot(tables, use, root') && vpn < NVPN
    ensures IsRoot(SetEntry(tables, p, i, e), use, root')
    ensures Lookup(SetEntry(tables, p, i, e), root', vpn) == if root' == root
            && vpn == x * 512 + i then e else Lookup(tables, root', vpn)
  {
    hide EntriesOk;
    hide ParentOk;
    WalkDown(tables, use, root', vpn);
    TableOfRoot(tables, use, p, root, x);
    PathExists(tables, use, p, root, x, x * 512 + i);
    var p1 :| Path(tables, root, x * 512 + i, p1, p);
    var e2, e1 := Entry(tables, root', 2, vpn), Middle(tables, root', vpn);
    assert Entry(SetEntry(tables, p, i, e), root', 2, vpn) == e2;
    if e2.v && e1.v {
      SlotsApart(tables, use, root, x * 512 + i, p1, p, root', vpn, e2.ppn, e1.ppn);
    }
  }

  /** The table page recorded for vpn is the one the walk reaches. */
  lemma PathExists(tables: Tables, use: Uses, p: nat, root: nat, x: nat, vpn: nat)
    requires TablesOk(tables, use) && IsTable(tables, use, p, root, 0, x) && vpn < NVPN && Prefix(0, vpn) == x
    ensures exists p1 :: Path(tables, root, vpn, p1, p)
  {
    PrefixStep(2, vpn);
    PrefixStep(1, vpn);
    assert ParentOk(tables, use, p);
    var p1 := use[p].parent;
    assert ParentOk(tables, use, p1);
    assert Path(tables, root, vpn, p1, p);
  }

  /** walk's `*pte = PA2PTE(pagetable) | PTE_V` with a fresh zeroed page. */
  function Linked(tables: Tables, p: nat, i: nat, n: nat): (r: Tables)
    requires p in tables && i < |tables[p]|
  {
    tables[n := ZeroTable()][p := tables[p][i := Pte(true, false, false, false, false, n)]]
  }

  lemma LinkOtherEntries(tables: Tables, use: Uses, p: nat, i: nat, n: nat, root: nat, level: nat, x: nat, q: nat)
    requires TablesOk(tables, use) && IsTable(tables, use, p, root, level, x) && 0 < level <= 2 && i < NPTE
    requires !tables[p][i].v && n in use && !use[n].Table? && q in tables
    ensures var tables', use' := Linked(tables, p, i, n), use[n := Table(root, level - 1, x * 512 + i, p)];
            |tables'[q]| == NPTE && EntriesOk(tables', use', q)
  {
    hide ParentOk;
    assert n !in tables;
    assert EntriesOk(tables, use, q);
  }

  lemma LinkOtherParent(tables: Tables, use: Uses, p: nat, i: nat, n: nat, root: nat, level: nat, x: nat, q: nat)
    requires TablesOk(tables, use) && IsTable(tables, use, p, root, level, x) && 0 < level <= 2 && i < NPTE
    requires !tables[p][i].v && n in use && !use[n].Table? && q in tables
    ensures ParentOk(Linked(tables, p, i, n), use[n := Table(root, level - 1, x * 512 + i, p)], q)
  {
    hide EntriesOk;
    assert n !in tables;
    assert ParentOk(tables, use, q);
  }

  lemma LinkTables(tables: Tables, use: Uses, p: nat, i: nat, n: nat, root: nat, level: nat, x: nat)
    requires TablesOk(tables, use) && IsTable(tables, use, p, root, level, x) && 0 < level <= 2 && i < NPTE
    requires !tables[p][i].v && n in use && !use[n].Table? && InRange(level - 1, x * 512 + i)
    ensures TablesOk(Linked(tables, p, i, n), use[n := Table(root, level - 1, x * 512 + i, p)])
  {
    var tables', use' := Linked(tables, p, i, n), use[n := Table(root, level - 1, x * 512 + i, p)];
    assert EntriesOk(tables', use', n) && ParentOk(tables', use', n);
    hide EntriesOk;
    hide ParentOk;
    forall q | q in tables' && q != n
      ensures |tables'[q]| == NPTE && EntriesOk(tables', use', q) && ParentOk(tables', use', q)
    {
      LinkOtherEntries(tables, use, p, i, n, root, level, x, q);
      LinkOtherParent(tables, use, p, i, n, root, level, x, q);
    }
  }

  lemma LinkMapAt(tables: Tables, use: Uses, p: nat, i: nat, n: nat, root: nat, level: nat, x: nat, root': nat,
                  vpn: nat)
    requires TablesOk(tables, use) && IsTable(tables, use, p, root, level, x) && 0 < level <= 2 && i < NPTE
    requires !tables[p][i].v && n in use && !use[n].Table?
    requires IsRoot(tables, use, root') && vpn < NVPN
    ensures Lookup(Linked(tables, p, i, n), root', vpn) == Lookup(tables, root', vpn)
  {
    hide EntriesOk;
    hide ParentOk;
    WalkDown(tables, use, root', vpn);
    var tables' := Linked(tables, p, i, n);
    assert n !in tables;
    var e2 := Entry(tables, root', 2, vpn);
    if p == root' && i == Px(2, vpn) {
      assert Entry(tables', n, 1, vpn) == ZeroPte;
    } else {
      assert Entry(tables', root', 2, vpn) == e2;
      if e2.v && p == e2.ppn && i == Px(1, vpn) {
        assert Entry(tables', n, 0, vpn) == ZeroPte;
      }
    }
  }

  lemma LinkRoot(tables: Tables, use: Uses, p: nat, i: nat, n: nat, root: nat, level: nat, x: nat, root': nat)
    requires TablesOk(tables, use) && p in tables && 0 < level <= 2 && i < NPTE && n in use && !use[n].Table?
    ensures IsRoot(tables, use, root') <==>
              IsRoot(Linked(tables, p, i, n), use[n := Table(root, level - 1, x * 512 + i, p)], root')
  {
    hide EntriesOk;
    hide ParentOk;
  }

  /** Adding an empty table page below an empty entry leaves every flat map as
      it was. */
  lemma LinkMap(tables: Tables, use: Uses, p: nat, i: nat, n: nat, root: nat, level: nat, x: nat)
    requires TablesOk(tables, use) && IsTable(tables, use, p, root, level, x) && 0 < level <= 2 && i < NPTE
    requires !tables[p][i].v && n in use && !use[n].Table?
    ensures SameMap(tables, use, Linked(tables, p, i, n), use[n := Table(root, level - 1, x * 512 + i, p)])
  {
    hide EntriesOk;
    hide ParentOk;
    hide Lookup;
    hide IsRoot;
    var tables', use' := Linked(tables, p, i, n), use[n := Table(root, level - 1, x * 512 + i, p)];
    forall root': nat
      ensures IsRoot(tables, use, root') <==> IsRoot(tables', use', root')
    {
      LinkRoot(tables, use, p, i, n, root, level, x, root');
    }
    forall root': nat, vpn: nat | IsRoot(tables, use, root') && vpn < NVPN
      ensures Lookup(tables', root', vpn) == Lookup(tables, root', vpn)
    {
      LinkMapAt(tables, use, p, i, n, root, level, x, root', vpn);
    }
  }

  /** The walk ends at the entry the flat map gives. */
  lemma LookupAt(tables: Tables, use: Uses, p: nat, root: nat, vpn: nat)
    requires TablesOk(tables, use) && vpn < NVPN && IsTable(tables, use, p, root, 0, Prefix(0, vpn))
    ensures Lookup(tables, root, vpn) == tables[p][Px(0, vpn)]
  {
    hide EntriesOk;
    hide ParentOk;
    PathExists(tables, use, p, root, Prefix(0, vpn), vpn);
  }

  /** Unmapped pages look up as the zero entry. */
  lemma LookupZero(tables: Tables, use: Uses, root: nat, vpn: nat)
    requires TablesOk(tables, use) && IsRoot(tables, use, root) && vpn < NVPN
    ensures LevelZero(Lookup(tables, root, vpn))
  {
    hide ParentOk;
    WalkDown(tables, use, root, vpn);
    if Entry(tables, root, 2, vpn).v && Middle(tables, root, vpn).v {
      assert EntriesOk(tables, use, Middle(tables, root, vpn).ppn);
    }
  }

  /** A missing entry on the way means the page is not mapped. */
  lemma LookupMissing(tables: Tables, use: Uses, p: nat, root: nat, level: nat, vpn: nat)
    requires TablesOk(tables, use) && IsRoot(tables, use, root) && vpn < NVPN && 0 < level <= 2
    requires IsTable(tables, use, p, root, level, Prefix(level, vpn)) && !tables[p][Px(level, vpn)].v
    ensures Lookup(tables, root, vpn) == ZeroPte
  {
    hide EntriesOk;
    WalkDown(tables, use, root, vpn);
    assert ParentOk(tables, use, p);
    if level == 1 && Entry(tables, root, 2, vpn).v {
      UniqueTable(tables, use, p, Entry(tables, root, 2, vpn).ppn, root, 1, Prefix(1, vpn));
    }
  }

  lemma SameMapTrans(t1: Tables, u1: Uses, t2: Tables, u2: Uses, t3: Tables, u3: Uses)
    requires SameMap(t1, u1, t2, u2) && SameMap(t2, u2, t3, u3)
    ensures SameMap(t1, u1, t3, u3)
  {
    hide Lookup;
    hide IsRoot;
    forall root: nat, vpn: nat | IsRoot(t1, u1, root) && vpn < NVPN
      ensures Lookup(t3, root, vpn) == Lookup(t1, root, vpn)
    {
      assert Lookup(t2, root, vpn) == Lookup(t1, root, vpn);
    }
  }

  /** The two records agree on which pages are tables and which tables they
      are. */
  ghost predicate SameTables(use: Uses, use': Uses) {
    forall p :: (p in use && use[p].Table? ==> p in use' && use'[p] == use[p])
                && (p in use' && use'[p].Table? ==> p in use && use[p] == use'[p])
  }

  lemma TablesUse(tables: Tables, use: Uses, use': Uses)
    requires TablesOk(tables, use) && SameTables(use, use')
    ensures TablesOk(tables, use')
    ensures forall r: nat :: IsRoot(tables, use, r) <==> IsRoot(tables, use', r)
  {
    forall q | q in tables
      ensures EntriesOk(tables, use', q) && ParentOk(tables, use', q)
    {
      assert EntriesOk(tables, use, q) && ParentOk(tables, use, q);
    }
  }
}
