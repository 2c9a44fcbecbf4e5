/** The allocator of user/umalloc.c: a circular free list in address order.
    Addresses count header-sized units, and `base` lies below the heap. */
module Umalloc {
  import opened Base

  const BASE: nat := 1
  const HEADER: nat := 16

  type Sizes = map<nat, nat>

  /** The place after i on a cycle of n. */
  function Next(i: nat, n: nat): (j: nat) {
    if i + 1 < n then i + 1 else 0
  }

  ghost predicate Link(c: seq<nat>, ptr: map<nat, nat>, i: nat)
    requires i < |c|
  {
    c[i] in ptr && ptr[c[i]] == c[Next(i, |c|)]
  }

  /** The free list runs through c in order and back to its start. */
  ghost predicate Cycle(c: seq<nat>, ptr: map<nat, nat>) {
    |c| > 0 && c[0] == BASE && Ascending(c) && forall i: nat :: i < |c| ==> Link(c, ptr, i)
  }

  ghost predicate Ascending(c: seq<nat>) {
    forall i, j :: 0 <= i < j < |c| ==> c[i] < c[j]
  }

  /** The free block at i does not touch the next. */
  ghost predicate Gap(c: seq<nat>, size: Sizes, i: nat)
    requires i + 1 < |c|
  {
    c[i] in size && c[i] + size[c[i]] < c[i + 1]
  }

  ghost predicate Apart(c: seq<nat>, size: Sizes) {
    forall i: nat :: i + 1 < |c| ==> Gap(c, size, i)
  }

  /** h is the header of a heap block, free or handed out. */
  ghost predicate Block(c: seq<nat>, live: set<nat>, h: nat) {
    h in live || (h in c && h != BASE)
  }

  ghost predicate Covers(size: Sizes, own: map<nat, nat>, h: nat)
    requires h in size
  {
    forall u: nat :: h <= u < h + size[h] ==> u in own && own[u] == h
  }

  /** The blocks tile the memory obtained from sbrk: `own` gives for each unit
      the one block it is part of. */
  ghost predicate Tiled(c: seq<nat>, live: set<nat>, size: Sizes, own: map<nat, nat>) {
    && BASE in size && size[BASE] == 0
    && (forall h :: h in live ==> h !in c)
    && (forall h: nat :: Block(c, live, h) ==> h in size && size[h] > 0 && h > BASE && Covers(size, own, h))
    && (forall u :: u in own ==> Owned(c, live, size, own, u))
  }

  ghost predicate Owned(c: seq<nat>, live: set<nat>, size: Sizes, own: map<nat, nat>, u: nat)
    requires u in own
  {
    Block(c, live, own[u]) && own[u] in size && own[u] <= u < own[u] + size[own[u]]
  }

  /** Blocks in order do not overlap. */
  lemma Below(c: seq<nat>, live: set<nat>, size: Sizes, own: map<nat, nat>, g: nat, h: nat)
    requires Tiled(c, live, size, own) && (g == BASE || Block(c, live, g)) && Block(c, live, h) && g < h
    ensures g in size && g + size[g] <= h
  {
    assert h in own && own[h] == h;
  }

  ghost function InsertAt(c: seq<nat>, k: nat, x: nat): (r: seq<nat>)
    requires k <= |c|
    ensures |r| == |c| + 1
    ensures forall i :: 0 <= i < |r| ==> r[i] == if i < k then c[i] else if i == k then x else c[i - 1]
  {
    c[..k] + [x] + c[k..]
  }

  ghost function RemoveAt(c: seq<nat>, k: nat): (r: seq<nat>)
    requires k < |c|
    ensures |r| == |c| - 1
    ensures forall i :: 0 <= i < |r| ==> r[i] == if i < k then c[i] else c[i + 1]
  {
    c[..k] + c[k + 1..]
  }

  lemma InsertIn(c: seq<nat>, k: nat, x: nat, h: nat)
    requires k <= |c|
    ensures h in InsertAt(c, k, x) <==> h in c || h == x
  {
    assert c == c[..k] + c[k..];
  }

  lemma RemoveIn(c: seq<nat>, k: nat, h: nat)
    requires Ascending(c) && k < |c|
    ensures h in RemoveAt(c, k) <==> h in c && h != c[k]
  {
    var r := RemoveAt(c, k);
    if h in c && h != c[k] {
      var i :| 0 <= i < |c| && c[i] == h;
      assert r[if i < k then i else i - 1] == h;
    }
  }

  lemma InsertLink(c: seq<nat>, ptr: map<nat, nat>, t: nat, bp: nat, i: nat)
    requires Cycle(c, ptr) && t < |c| && c[t] < bp && (t + 1 < |c| ==> bp < c[t + 1]) && i <= |c|
    ensures Link(InsertAt(c, t + 1, bp), ptr[bp := c[Next(t, |c|)]][c[t] := bp], i)
  {
    var c' := InsertAt(c, t + 1, bp);
    if i < t {
      assert Link(c, ptr, i) && c'[i] == c[i] && c'[i + 1] == c[i + 1];
    } else if i > t + 1 {
      assert Link(c, ptr, i - 1) && c'[i] == c[i - 1] && c'[Next(i, |c'|)] == c[Next(i - 1, |c|)];
    }
  }

  lemma InsertCycle(c: seq<nat>, ptr: map<nat, nat>, t: nat, bp: nat)
    requires Cycle(c, ptr) && t < |c| && c[t] < bp && (t + 1 < |c| ==> bp < c[t + 1])
    ensures Cycle(InsertAt(c, t + 1, bp), ptr[bp := c[Next(t, |c|)]][c[t] := bp])
  {
    hide Link;
    var c', ptr' := InsertAt(c, t + 1, bp), ptr[bp := c[Next(t, |c|)]][c[t] := bp];
    assert c'[0] == c[0];
    assert Ascending(c');
    forall i: nat | i < |c'|
      ensures Link(c', ptr', i)
    {
      InsertLink(c, ptr, t, bp, i);
    }
  }

  lemma RemoveCycle(c: seq<nat>, ptr: map<nat, nat>, k: nat)
    requires Cycle(c, ptr) && k + 1 < |c|
    ensures Cycle(RemoveAt(c, k + 1), ptr[c[k] := c[Next(k + 1, |c|)]])
  {
    var c', ptr' := RemoveAt(c, k + 1), ptr[c[k] := c[Next(k + 1, |c|)]];
    assert c'[0] == c[0];
    forall i: nat | i < |c'|
      ensures Link(c', ptr', i)
    {
      if i < k {
        assert Link(c, ptr, i) && c'[i] == c[i] && c'[i + 1] == c[i + 1];
      } else if i > k {
        assert Link(c, ptr, i + 1) && c'[i] == c[i + 1] && c'[Next(i, |c'|)] == c[Next(i + 1, |c|)];
      }
    }
    assert Ascending(c');
  }

  /** The allocator's memory: the free list in order, the headers of the blocks
      handed out, the header fields, and the block of each unit. */
  datatype Memory = Memory(c: seq<nat>, live: set<nat>, ptr: map<nat, nat>, size: Sizes, own: map<nat, nat>) {
    ghost predicate Ok() {
      Cycle(c, ptr) && Tiled(c, live, size, own)
    }
  }

  /** A block that was handed out becomes free and is linked in after t. */
  ghost function Linked(m: Memory, t: nat, bp: nat): (r: Memory)
    requires t < |m.c|
  {
    m.(c := InsertAt(m.c, t + 1, bp), live := m.live - {bp}, ptr := m.ptr[bp := m.c[Next(t, |m.c|)]][m.c[t] := bp])
  }

  lemma LinkedOk(m: Memory, t: nat, bp: nat)
    requires m.Ok() && bp in m.live && t < |m.c| && m.c[t] < bp && (t + 1 < |m.c| ==> bp < m.c[t + 1])
    ensures Linked(m, t, bp).Ok()
  {
    InsertCycle(m.c, m.ptr, t, bp);
    InsertTiled(m.c, m.live, m.size, m.own, t, bp);
  }

  lemma InsertTiled(c: seq<nat>, live: set<nat>, size: Sizes, own: map<nat, nat>, t: nat, bp: nat)
    requires Tiled(c, live, size, own) && bp in live && t < |c|
    ensures Tiled(InsertAt(c, t + 1, bp), live - {bp}, size, own)
  {
    hide InsertAt;
    var c' := InsertAt(c, t + 1, bp);
    forall h: nat
      ensures h in c' <==> h in c || h == bp
    {
      InsertIn(c, t + 1, bp, h);
    }
    assert forall h: nat :: Block(c', live - {bp}, h) <==> Block(c, live, h);
  }

  /** The units of block h become part of block g. */
  ghost function Absorbed(own: map<nat, nat>, h: nat, g: nat): (r: map<nat, nat>) {
    map u | u in own :: if own[u] == h then g else own[u]
  }

  /** The free block at k absorbs the next. */
  ghost function Joined(m: Memory, k: nat): (r: Memory)
    requires k + 1 < |m.c| && m.c[k] in m.size && m.c[k + 1] in m.size
  {
    Memory(RemoveAt(m.c, k + 1), m.live, m.ptr[m.c[k] := m.c[Next(k + 1, |m.c|)]],
           m.size[m.c[k] := m.size[m.c[k]] + m.size[m.c[k + 1]]], Absorbed(m.own, m.c[k + 1], m.c[k]))
  }

  lemma JoinedOk(m: Memory, k: nat)
    requires m.Ok() && 0 < k && k + 1 < |m.c| && m.c[k] in m.size && m.c[k] + m.size[m.c[k]] == m.c[k + 1]
    ensures m.c[k + 1] in m.size && Joined(m, k).Ok()
  {
    hide Absorbed;
    hide RemoveAt;
    hide Link;
    hide Covers;
    hide Owned;
    assert Block(m.c, m.live, m.c[k + 1]);
    RemoveCycle(m.c, m.ptr, k);
    MergeTiled(m.c, m.live, m.size, m.own, k);
  }

  lemma MergeTiled(c: seq<nat>, live: set<nat>, size: Sizes, own: map<nat, nat>, k: nat)
    requires Ascending(c) && Tiled(c, live, size, own) && k + 1 < |c| && c[k] != BASE && c[k + 1] != BASE
             && c[k + 1] !in live
    requires c[k] in size && c[k] + size[c[k]] == c[k + 1] && c[k + 1] in size
    ensures Tiled(RemoveAt(c, k + 1), live, size[c[k] := size[c[k]] + size[c[k + 1]]], Absorbed(own, c[k + 1], c[k]))
  {
    hide Tiled;
    hide Absorbed;
    hide RemoveAt;
    var g: nat, h: nat, c' := c[k], c[k + 1], RemoveAt(c, k + 1);
    assert Block(c, live, g) && Block(c, live, h);
    forall x: nat
      ensures x in c' <==> x in c && x != h
    {
      RemoveIn(c, k + 1, x);
    }
    assert forall x: nat :: Block(c', live, x) <==> Block(c, live, x) && x != h;
    AbsorbTiled(c, c', live, size, own, g, h);
  }

  lemma AbsorbTiled(c: seq<nat>, c': seq<nat>, live: set<nat>, size: Sizes, own: map<nat, nat>, g: nat, h: nat)
    requires Tiled(c, live, size, own) && Block(c, live, g) && Block(c, live, h) && g != BASE && h != BASE
    requires g in size && h in size && g + size[g] == h && (forall x :: x in c' ==> x in c)
    requires forall x: nat :: Block(c', live, x) <==> Block(c, live, x) && x != h
    ensures Tiled(c', live, size[g := size[g] + size[h]], Absorbed(own, h, g))
  {
    hide Block;
    var size' := size[g := size[g] + size[h]];
    var own' := Absorbed(own, h, g);
    forall x: nat | Block(c', live, x)
      ensures x in size' && Covers(size', own', x)
    {
      AbsorbCovers(size, own, g, h, x);
    }
    hide Covers;
    forall u | u in own'
      ensures Owned(c', live, size', own', u)
    {
      assert Owned(c, live, size, own, u);
    }
  }

  lemma AbsorbCovers(size: Sizes, own: map<nat, nat>, g: nat, h: nat, x: nat)
    requires g in size && h in size && x in size && g + size[g] == h && x != h
    requires Covers(size, own, g) && Covers(size, own, h) && Covers(size, own, x)
    ensures Covers(size[g := size[g] + size[h]], Absorbed(own, h, g), x)
  {
  }

  lemma LiveSized(m: Memory)
    requires m.Ok()
    ensures forall h :: h in m.live ==> h in m.size && h !in m.c && m.size[h] > 0 && h > BASE
  {
    forall h | h in m.live
      ensures h in m.size && m.size[h] > 0 && h > BASE
    {
      assert Block(m.c, m.live, h);
    }
  }

  /** Every block on the list or handed out has a size. */
  lemma Sized(m: Memory, bp: nat)
    requires m.Ok() && bp in m.live
    ensures bp in m.size && m.size[bp] > 0 && bp > BASE && bp !in m.c && forall h :: h in m.c ==> h in m.size
    ensures forall h :: h in m.live ==> h in m.size && h !in m.c
  {
    LiveSized(m);
    forall h | h in m.c
      ensures h in m.size
    {
      assert h == BASE || Block(m.c, m.live, h);
    }
  }

  /** Where the block bp belongs. */
  ghost predicate Fits(m: Memory, t: nat, bp: nat) {
    && m.Ok() && bp in m.live && t < |m.c| && m.c[t] < bp && (t + 1 < |m.c| ==> bp < m.c[t + 1])
    && bp in m.size && (forall h :: h in m.c ==> h in m.size)
  }

  ghost predicate TouchesNext(m: Memory, t: nat, bp: nat)
    requires bp in m.size
  {
    t + 1 < |m.c| && bp + m.size[bp] == m.c[t + 1]
  }

  /** The first half of free: the block is linked in after t and joined with the
      next one if they touch. */
  ghost function Right(m: Memory, t: nat, bp: nat): (r: Memory)
    requires Fits(m, t, bp)
  {
    if TouchesNext(m, t, bp) then Joined(Linked(m, t, bp), t + 1) else Linked(m, t, bp)
  }

  lemma RightOk(m: Memory, t: nat, bp: nat)
    requires Fits(m, t, bp)
    ensures var r := Right(m, t, bp);
            && r.Ok() && r.live == m.live - {bp} && t + 1 < |r.c| && r.c[t] == m.c[t] && r.c[t + 1] == bp
  {
    hide Tiled;
    hide Cycle;
    hide Absorbed;
    LinkedOk(m, t, bp);
    if TouchesNext(m, t, bp) {
      JoinedOk(Linked(m, t, bp), t + 1);
    }
  }

  lemma RightFields(m: Memory, t: nat, bp: nat)
    requires Fits(m, t, bp)
    ensures var r, n := Right(m, t, bp), m.c[Next(t, |m.c|)];
            && (TouchesNext(m, t, bp) <==> bp + m.size[bp] == n)
            && r.size == (if TouchesNext(m, t, bp) then m.size[bp := m.size[bp] + m.size[n]] else m.size)
            && r.ptr == m.ptr[bp := if TouchesNext(m, t, bp) then m.c[Next(t + 1, |m.c|)] else n][m.c[t] := bp]
  {
    hide Tiled;
    hide Link;
    hide InsertAt;
    hide RemoveAt;
    hide Absorbed;
    assert m.c[0] == BASE < bp;
    if TouchesNext(m, t, bp) {
      JoinedNew(m, t, bp);
    }
  }

  lemma JoinedNew(m: Memory, t: nat, bp: nat)
    requires t + 1 < |m.c| && bp in m.size && m.c[t + 1] in m.size && bp != m.c[t]
    ensures var m1 := Linked(m, t, bp);
            && m1.c[t + 1] == bp && m1.c[t + 2] == m.c[t + 1]
            && Joined(m1, t + 1).size == m.size[bp := m.size[bp] + m.size[m.c[t + 1]]]
            && Joined(m1, t + 1).ptr == m.ptr[bp := m.c[Next(t + 1, |m.c|)]][m.c[t] := bp]
  {
    var m1 := Linked(m, t, bp);
    assert m1.c[t + 1] == bp && m1.c[t + 2] == m.c[t + 1];
    assert m1.c[Next(t + 2, |m1.c|)] == m.c[Next(t + 1, |m.c|)];
  }

  /** Joining free blocks changes no unit's holder. */
  lemma JoinedHolders(m: Memory, k: nat)
    requires m.Ok() && k + 1 < |m.c| && m.c[k] in m.size && m.c[k + 1] in m.size
    ensures Holders(Joined(m, k).own, Joined(m, k).live) == Holders(m.own, m.live)
  {
    hide Cycle;
    hide RemoveAt;
    assert m.c[k] in m.c && m.c[k + 1] in m.c;
    AbsorbedHolders(m.own, m.live, m.c[k + 1], m.c[k]);
  }

  lemma AbsorbedHolders(own: map<nat, nat>, live: set<nat>, h: nat, g: nat)
    requires h !in live && g !in live
    ensures Holders(Absorbed(own, h, g), live) == Holders(own, live)
  {
  }

  lemma RightHolders(m: Memory, t: nat, bp: nat)
    requires Fits(m, t, bp)
    ensures Holders(Right(m, t, bp).own, Right(m, t, bp).live) == Released(Holders(m.own, m.live), bp)
  {
    hide Tiled;
    hide Cycle;
    hide Absorbed;
    LinkedOk(m, t, bp);
    var m1 := Linked(m, t, bp);
    assert m1.own == m.own && m1.live == m.live - {bp};
    assert Holders(m1.own, m1.live) == Released(Holders(m.own, m.live), bp);
    if TouchesNext(m, t, bp) {
      JoinedHolders(m1, t + 1);
    }
  }

  /** Only the gap at k may be missing. */
  ghost predicate GapsBut(c: seq<nat>, size: Sizes, k: nat) {
    forall i: nat :: i + 1 < |c| && i != k ==> Gap(c, size, i)
  }

  lemma LinkedGap(m: Memory, t: nat, bp: nat, i: nat)
    requires Fits(m, t, bp) && Apart(m.c, m.size) && i < |m.c| && i != t && (i == t + 1 ==> !TouchesNext(m, t, bp))
    ensures Gap(Linked(m, t, bp).c, m.size, i)
  {
    hide Cycle;
    if i == t + 1 {
      InOrder(m, t, bp);
    } else {
      assert Gap(m.c, m.size, if i < t then i else i - 1);
    }
  }

  lemma InOrder(m: Memory, t: nat, bp: nat)
    requires Fits(m, t, bp) && t + 1 < |m.c|
    ensures bp + m.size[bp] <= m.c[t + 1]
  {
    assert m.c[0] < m.c[t + 1];
    assert Block(m.c, m.live, m.c[t + 1]) && Block(m.c, m.live, bp);
    Below(m.c, m.live, m.size, m.own, bp, m.c[t + 1]);
  }

  lemma JoinedGap(m: Memory, k: nat, i: nat)
    requires Ascending(m.c) && k + 1 < |m.c| && m.c[k] in m.size && m.c[k + 1] in m.size
             && m.c[k] + m.size[m.c[k]] == m.c[k + 1]
    requires i + 2 < |m.c| && Gap(m.c, m.size, if i < k then i else i + 1)
    ensures Gap(Joined(m, k).c, Joined(m, k).size, i)
  {
    hide Absorbed;
  }

  lemma RightGaps(m: Memory, t: nat, bp: nat)
    requires Fits(m, t, bp) && Apart(m.c, m.size)
    ensures GapsBut(Right(m, t, bp).c, Right(m, t, bp).size, t)
  {
    hide Tiled;
    hide Absorbed;
    hide Gap;
    hide Apart;
    LinkedOk(m, t, bp);
    var m1, r := Linked(m, t, bp), Right(m, t, bp);
    forall i: nat | i + 1 < |r.c| && i != t
      ensures Gap(r.c, r.size, i)
    {
      if TouchesNext(m, t, bp) {
        LinkedGap(m, t, bp, if i < t then i else i + 1);
        JoinedGap(m1, t + 1, i);
      } else {
        LinkedGap(m, t, bp, i);
      }
    }
  }

  /** The second half of free: the block after t is joined with the one at t if
      they touch. */
  ghost function Left(m: Memory, t: nat): (r: Memory)
    requires t + 1 < |m.c| && m.c[t] in m.size && m.c[t + 1] in m.size
  {
    if m.c[t] + m.size[m.c[t]] == m.c[t + 1] then Joined(m, t) else m
  }

  lemma LeftOk(m: Memory, t: nat)
    requires m.Ok() && t + 1 < |m.c| && m.c[t] in m.size && m.c[t + 1] in m.size
    ensures var r := Left(m, t);
            && r.Ok() && r.live == m.live && t < |r.c| && r.c[t] == m.c[t]
               && Holders(r.own, r.live) == Holders(m.own, m.live)
  {
    hide Tiled;
    hide Absorbed;
    hide Holders;
    if m.c[t] + m.size[m.c[t]] == m.c[t + 1] {
      BaseFirst(m, t);
      JoinedOk(m, t);
      JoinedHolders(m, t);
    }
  }

  lemma BaseFirst(m: Memory, t: nat)
    requires m.Ok() && t + 1 < |m.c| && m.c[t] in m.size && m.c[t] + m.size[m.c[t]] == m.c[t + 1]
    ensures t > 0
  {
    assert m.c[t] < m.c[t + 1];
  }

  lemma LeftFields(m: Memory, t: nat)
    requires m.Ok() && t + 1 < |m.c| && m.c[t] in m.size && m.c[t + 1] in m.size
    ensures var r, p, bp := Left(m, t), m.c[t], m.c[t + 1];
            && p in m.ptr && m.ptr[p] == bp && bp in m.ptr
            && r.size == (if p + m.size[p] == bp then m.size[p := m.size[p] + m.size[bp]] else m.size)
            && r.ptr == m.ptr[p := if p + m.size[p] == bp then m.ptr[bp] else bp]
  {
    hide Tiled;
    hide Absorbed;
    hide RemoveAt;
    assert Link(m.c, m.ptr, t) && Link(m.c, m.ptr, t + 1);
  }

  lemma LeftGaps(m: Memory, t: nat)
    requires m.Ok() && t + 1 < |m.c| && m.c[t] in m.size && m.c[t + 1] in m.size && GapsBut(m.c, m.size, t)
    ensures Apart(Left(m, t).c, Left(m, t).size)
  {
    hide Absorbed;
    hide Link;
    assert m.c[0] < m.c[t + 1];
    assert t > 0 ==> m.c[0] < m.c[t];
    Below(m.c, m.live, m.size, m.own, m.c[t], m.c[t + 1]);
    hide Tiled;
    var r := Left(m, t);
    forall i: nat | i + 1 < |r.c|
      ensures Gap(r.c, r.size, i)
    {
      if m.c[t] + m.size[m.c[t]] == m.c[t + 1] {
        JoinedGap(m, t, i);
      }
    }
  }

  /** The block that a unit of a linked block ends up in. */
  lemma LeftOwn(m: Memory, t: nat)
    requires m.Ok() && t + 1 < |m.c| && m.c[t] in m.size && m.c[t + 1] in m.size
    ensures var r, bp := Left(m, t), m.c[t + 1];
            && bp in r.own && r.own[bp] in r.size && m.size[bp] <= r.size[r.own[bp]]
            && (r.own[bp] == m.c[t] || r.own[bp] == bp)
            && (r.own[bp] == bp ==> m.c[t] in r.ptr && r.ptr[m.c[t]] == bp)
  {
    hide RemoveAt;
    assert m.c[0] < m.c[t + 1];
    assert Block(m.c, m.live, m.c[t + 1]);
    assert Covers(m.size, m.own, m.c[t + 1]);
    assert Link(m.c, m.ptr, t);
  }

  /** What free leaves behind. */
  lemma FreedOk(m: Memory, t: nat, bp: nat)
    requires Fits(m, t, bp) && Apart(m.c, m.size)
    ensures var m2 := Right(m, t, bp);
            && m2.Ok() && t + 1 < |m2.c| && m2.c[t] == m.c[t] && m2.c[t + 1] == bp && m2.c[t] in m2.size
               && bp in m2.size
            && var r := Left(m2, t);
               && r.Ok() && Apart(r.c, r.size) && r.live == m.live - {bp} && m.c[t] in r.c
               && Holders(r.own, r.live) == Released(Holders(m.own, m.live), bp) && r.own.Keys == m.own.Keys
               && (forall h :: h in r.live ==> h in r.size && h in m.size && r.size[h] == m.size[h])
               && bp in r.own && r.own[bp] in r.size && m.size[bp] <= r.size[r.own[bp]]
               && (r.own[bp] == m.c[t] || (m.c[t] in r.ptr && r.ptr[m.c[t]] == r.own[bp]))
  {
    hide Tiled;
    hide Cycle;
    hide Apart;
    hide GapsBut;
    hide Right;
    hide Left;
    hide Absorbed;
    Sized(m, bp);
    RightOk(m, t, bp);
    RightFields(m, t, bp);
    RightHolders(m, t, bp);
    RightGaps(m, t, bp);
    var m2 := Right(m, t, bp);
    LeftOk(m2, t);
    LeftFields(m2, t);
    LeftGaps(m2, t);
    LeftOwn(m2, t);
    var r := Left(m2, t);
    assert r.c[t] == m.c[t];
    assert r.own.Keys == Holders(r.own, r.live).Keys == Holders(m.own, m.live).Keys;
  }

  /** The last place on the list below address a. */
  ghost function Place(c: seq<nat>, a: nat): (t: nat)
    requires |c| > 0 && c[0] < a
    ensures t < |c| && c[t] < a && (t + 1 < |c| ==> a <= c[t + 1])
    decreases |c|
  {
    if c[|c| - 1] < a then |c| - 1 else Place(c[..|c| - 1], a)
  }

  /** Steps along the cycle from i to t. */
  function Dist(i: nat, t: nat, n: nat): (d: int) {
    if i <= t then t - i else t + n - i
  }

  /** Who holds each unit of memory: the block it was handed out in, or no one. */
  ghost function Holders(own: map<nat, nat>, live: set<nat>): (r: map<nat, Option<nat>>) {
    map u | u in own :: if own[u] in live then Some(own[u]) else None
  }

  ghost function Released(held: map<nat, Option<nat>>, h: nat): (r: map<nat, Option<nat>>) {
    map u | u in held :: if held[u] == Some(h) then None else held[u]
  }

  /** The whole free block after k is handed out. */
  ghost function Taken(m: Memory, k: nat): (r: Memory)
    requires k + 1 < |m.c|
  {
    m.(c := RemoveAt(m.c, k + 1), live := m.live + {m.c[k + 1]}, ptr := m.ptr[m.c[k] := m.c[Next(k + 1, |m.c|)]])
  }

  lemma TakenOk(m: Memory, k: nat)
    requires m.Ok() && k + 1 < |m.c|
    ensures Taken(m, k).Ok()
  {
    RemoveCycle(m.c, m.ptr, k);
    hide RemoveAt;
    var h, r := m.c[k + 1], Taken(m, k);
    forall x: nat
      ensures x in r.c <==> x in m.c && x != h
    {
      RemoveIn(m.c, k + 1, x);
    }
    assert m.c[0] < h;
    hide Link;
    assert forall x: nat :: Block(r.c, r.live, x) <==> Block(m.c, m.live, x);
  }

  lemma TakenApart(m: Memory, k: nat)
    requires m.Ok() && k + 1 < |m.c| && Apart(m.c, m.size)
    ensures Apart(Taken(m, k).c, m.size)
  {
    hide Tiled;
    hide Link;
    var r := Taken(m, k);
    forall i: nat | i + 1 < |r.c|
      ensures Gap(r.c, m.size, i)
    {
      assert Gap(m.c, m.size, if i <= k then i else i + 1);
    }
  }

  /** The units h .. h + n are handed out as block h. */
  ghost function Granted(held: map<nat, Option<nat>>, h: nat, n: nat): (r: map<nat, Option<nat>>) {
    map u | u in held :: if h <= u < h + n then Some(h) else held[u]
  }

  /** They were all free. */
  ghost predicate Spare(held: map<nat, Option<nat>>, h: nat, n: nat) {
    forall u: nat :: h <= u < h + n ==> u in held && held[u] == None
  }

  lemma TakenHolders(m: Memory, k: nat)
    requires m.Ok() && k + 1 < |m.c| && m.c[k + 1] in m.size
    ensures var h, held := m.c[k + 1], Holders(m.own, m.live);
            Spare(held, h, m.size[h]) && Holders(m.own, Taken(m, k).live) == Granted(held, h, m.size[h])
  {
    hide RemoveAt;
    hide Link;
    hide Tiled;
    var h := m.c[k + 1];
    assert m.c[0] < h && h in m.c;
    Owners(m, h);
  }

  /** A block's units are those it owns. */
  lemma Owners(m: Memory, h: nat)
    requires m.Ok() && Block(m.c, m.live, h)
    ensures h in m.size && forall u: nat :: h <= u < h + m.size[h] <==> u in m.own && m.own[u] == h
    ensures h in m.c ==> h !in m.live
  {
    hide Cycle;
    assert Covers(m.size, m.own, h);
    forall u | u in m.own && m.own[u] == h
      ensures h <= u < h + m.size[h]
    {
      assert Owned(m.c, m.live, m.size, m.own, u);
    }
  }

  lemma NoOwner(m: Memory, q: nat)
    requires m.Ok() && !Block(m.c, m.live, q)
    ensures forall u :: u in m.own ==> m.own[u] != q
  {
    hide Cycle;
    forall u | u in m.own
      ensures m.own[u] != q
    {
      assert Owned(m.c, m.live, m.size, m.own, u);
    }
  }

  /** The units from q on of block p become block q. */
  ghost function Cut(own: map<nat, nat>, p: nat, q: nat): (r: map<nat, nat>) {
    map u | u in own :: if own[u] == p && u >= q then q else own[u]
  }

  /** The last n units of the free block p are handed out. */
  ghost function Split(m: Memory, p: nat, n: nat): (r: Memory)
    requires p in m.size && 0 < n < m.size[p]
  {
    var q := p + m.size[p] - n;
    m.(live := m.live + {q}, size := m.size[p := m.size[p] - n][q := n], own := Cut(m.own, p, q))
  }

  ghost predicate CanSplit(m: Memory, p: nat, n: nat) {
    m.Ok() && p in m.c && p != BASE && p in m.size && 0 < n < m.size[p]
  }

  /** The new block's address was no block's. */
  lemma NewBlock(m: Memory, p: nat, n: nat)
    requires CanSplit(m, p, n)
    ensures Block(m.c, m.live, p) && Covers(m.size, m.own, p) && !Block(m.c, m.live, p + m.size[p] - n) && p > BASE
  {
    hide Cycle;
    assert Block(m.c, m.live, p);
    var q := p + m.size[p] - n;
    forall h: nat | Block(m.c, m.live, h)
      ensures h != q
    {
      assert Covers(m.size, m.own, h);
      assert h in m.own && m.own[h] == h;
    }
  }

  lemma SplitOk(m: Memory, p: nat, n: nat)
    requires CanSplit(m, p, n)
    ensures Split(m, p, n).Ok()
  {
    hide Tiled;
    hide Covers;
    hide Cut;
    hide Cycle;
    NewBlock(m, p, n);
    var q, r := p + m.size[p] - n, Split(m, p, n);
    assert forall x: nat :: Block(r.c, r.live, x) <==> Block(m.c, m.live, x) || x == q;
    assert q !in m.c && q != BASE;
    CutTiled(m, r, p, q);
  }

  lemma CutTiled(m: Memory, r: Memory, p: nat, q: nat)
    requires Tiled(m.c, m.live, m.size, m.own) && Block(m.c, m.live, p) && p != BASE && p in m.size
             && p < q < p + m.size[p]
    requires !Block(m.c, m.live, q) && r.c == m.c && q !in m.c && r.live == m.live + {q} && q != BASE
    requires r.size == m.size[p := q - p][q := p + m.size[p] - q] && r.own == Cut(m.own, p, q)
    requires forall x: nat :: Block(r.c, r.live, x) <==> Block(m.c, m.live, x) || x == q
    ensures Tiled(r.c, r.live, r.size, r.own)
  {
    hide Block;
    forall x: nat | Block(r.c, r.live, x)
      ensures x in r.size && Covers(r.size, r.own, x)
    {
      CutCovers(m.size, m.own, p, q, x);
    }
    hide Covers;
    forall u | u in r.own
      ensures Owned(r.c, r.live, r.size, r.own, u)
    {
      CutOwned(m, r, p, q, u);
    }
  }

  lemma CutOwned(m: Memory, r: Memory, p: nat, q: nat, u: nat)
    requires u in m.own && Owned(m.c, m.live, m.size, m.own, u) && p in m.size && p < q < p + m.size[p]
    requires m.own[u] != q && Block(r.c, r.live, q) && (Block(m.c, m.live, m.own[u]) ==> Block(r.c, r.live, m.own[u]))
    requires r.size == m.size[p := q - p][q := p + m.size[p] - q] && r.own == Cut(m.own, p, q)
    ensures Owned(r.c, r.live, r.size, r.own, u)
  {
    hide Block;
  }

  lemma CutCovers(size: Sizes, own: map<nat, nat>, p: nat, q: nat, x: nat)
    requires p in size && p < q < p + size[p] && Covers(size, own, p) && (x != q ==> x in size && Covers(size, own, x))
    ensures Covers(size[p := q - p][q := p + size[p] - q], Cut(own, p, q), x)
  {
  }

  lemma SplitHolders(m: Memory, p: nat, n: nat)
    requires CanSplit(m, p, n)
    ensures var q, r, held := p + m.size[p] - n, Split(m, p, n), Holders(m.own, m.live);
            Spare(held, q, n) && Holders(r.own, r.live) == Granted(held, q, n)
  {
    hide Tiled;
    hide Cycle;
    hide Covers;
    NewBlock(m, p, n);
    Owners(m, p);
    NoOwner(m, p + m.size[p] - n);
    CutHolders(m.own, m.live, p, p + m.size[p] - n, n);
  }

  lemma CutHolders(own: map<nat, nat>, live: set<nat>, p: nat, q: nat, n: nat)
    requires p !in live && q !in live && p < q && forall u: nat :: p <= u < q + n <==> u in own && own[u] == p
    requires forall u :: u in own ==> own[u] != q
    ensures Spare(Holders(own, live), q, n) && Holders(Cut(own, p, q), live + {q}) == Granted(Holders(own, live), q, n)
  {
  }

  lemma SplitApart(m: Memory, p: nat, n: nat)
    requires CanSplit(m, p, n) && Apart(m.c, m.size)
    ensures Apart(m.c, Split(m, p, n).size)
  {
    NewBlock(m, p, n);
    var r := Split(m, p, n);
    hide Cycle;
    hide Tiled;
    forall i: nat | i + 1 < |m.c|
      ensures Gap(m.c, r.size, i)
    {
      assert Gap(m.c, m.size, i);
      assert m.c[i] in m.c;
    }
  }

  /** At least 4096 units at a time. */
  function AtLeast(nu: nat): (n: nat) {
    if nu < 4096 then 4096 else nu
  }

  /** New memory, as one block. */
  ghost function Extend(own: map<nat, nat>, a: nat, n: nat): (r: map<nat, nat>)
    ensures forall u :: u in r <==> u in own || a <= u < a + n
    ensures forall u :: u in r ==> r[u] == if a <= u < a + n then a else own[u]
  {
    if n == 0 then own else Extend(own, a, n - 1)[a + n - 1 := a]
  }

  /** New memory that no one holds. */
  ghost function Extended(held: map<nat, Option<nat>>, a: nat, n: nat): (r: map<nat, Option<nat>>)
    ensures forall u :: u in r <==> u in held || a <= u < a + n
    ensures forall u :: u in r ==> r[u] == if a <= u < a + n then None else held[u]
  {
    if n == 0 then held else Extended(held, a, n - 1)[a + n - 1 := None]
  }

  lemma ReleaseNew(own: map<nat, nat>, live: set<nat>, a: nat, n: nat)
    requires a !in live && forall u :: u in own ==> own[u] != a
    ensures Released(Holders(Extend(own, a, n), live + {a}), a) == Extended(Holders(own, live), a, n)
  {
  }

  /** Memory above all the rest is a block of its own. */
  lemma ExtendedOk(m: Memory, a: nat, n: nat, brk: nat)
    requires m.Ok() && Apart(m.c, m.size) && n > 0 && BASE < brk <= a && forall u :: u in m.own ==> u < brk
    ensures m.(live := m.live + {a}, size := m.size[a := n], own := Extend(m.own, a, n)).Ok()
    ensures Apart(m.c, m.size[a := n]) && a !in m.live && a !in m.c && forall u :: u in m.own ==> m.own[u] != a
  {
    hide Cycle;
    forall h: nat | Block(m.c, m.live, h)
      ensures h < a
    {
      assert Covers(m.size, m.own, h);
      assert h in m.own;
    }
    assert !Block(m.c, m.live, a);
    NoOwner(m, a);
    assert a !in m.c && a !in m.live;
    ExtendTiled(m, a, n);
    hide Tiled;
    var size := m.size[a := n];
    forall i: nat | i + 1 < |m.c|
      ensures Gap(m.c, size, i)
    {
      assert Gap(m.c, m.size, i);
    }
  }

  lemma ExtendCovers(size: Sizes, own: map<nat, nat>, a: nat, n: nat, x: nat)
    requires (forall u :: u in own ==> u < a) && (x != a ==> x in size && Covers(size, own, x))
    ensures Covers(size[a := n], Extend(own, a, n), x)
  {
  }

  lemma ExtendTiled(m: Memory, a: nat, n: nat)
    requires Tiled(m.c, m.live, m.size, m.own) && n > 0 && BASE < a && a !in m.c && a !in m.live
    requires forall u :: u in m.own ==> u < a
    ensures Tiled(m.c, m.live + {a}, m.size[a := n], Extend(m.own, a, n))
  {
    hide Covers;
    hide Extend;
    var live, size, own := m.live + {a}, m.size[a := n], Extend(m.own, a, n);
    assert forall x: nat :: Block(m.c, live, x) <==> Block(m.c, m.live, x) || x == a;
    hide Block;
    forall x: nat | Block(m.c, live, x)
      ensures x in size && Covers(size, own, x)
    {
      ExtendCovers(m.size, m.own, a, n, x);
    }
    forall u | u in own
      ensures Owned(m.c, live, size, own, u)
    {
      if u < a {
        assert Owned(m.c, m.live, m.size, m.own, u);
      }
    }
  }

  /** The largest request for which morecore's byte count fits the int that sbrk
      takes. */
  const MAXREQUEST: nat := 0x7fff_ffe0

  /** No block on the list is large enough. */
  ghost predicate NoFit(c: seq<nat>, size: Sizes, n: nat) {
    forall h :: h in c && h in size ==> size[h] < n
  }

  /** The blocks that malloc's loop met before the one at i are too small, when
      it began after f. */
  ghost predicate Passed(c: seq<nat>, size: Sizes, n: nat, i: nat, f: nat) {
    forall j: nat :: j < |c| && Dist(j, f, |c|) > Dist(i, f, |c|) && c[j] in size ==> size[c[j]] < n
  }

  lemma AllPassed(m: Memory, n: nat, i: nat, f: nat)
    requires m.Ok() && i < |m.c| && f < |m.c| && m.c[i] == m.c[f] && Passed(m.c, m.size, n, i, f) && m.c[f] in m.size
             && m.size[m.c[f]] < n
    ensures NoFit(m.c, m.size, n)
  {
    hide Tiled;
    assert i == f;
    forall h | h in m.c && h in m.size
      ensures m.size[h] < n
    {
      var j: nat :| j < |m.c| && m.c[j] == h;
      assert j != f ==> Dist(j, f, |m.c|) > 0;
    }
  }

  lemma OnePassed(m: Memory, n: nat, i: nat, f: nat)
    requires m.Ok() && i < |m.c| && f < |m.c| && i != f && m.c[i] in m.size && m.size[m.c[i]] < n
    ensures 0 <= Dist(Next(i, |m.c|), f, |m.c|) < Dist(i, f, |m.c|)
    ensures Passed(m.c, m.size, n, i, f) ==> Passed(m.c, m.size, n, Next(i, |m.c|), f)
  {
    hide Tiled;
    forall j: nat | j < |m.c| && Dist(j, f, |m.c|) > Dist(i, f, |m.c|) - 1
      ensures j == i || Dist(j, f, |m.c|) > Dist(i, f, |m.c|)
    {
    }
  }

  /** The change that a successful malloc makes: after new memory was added, if
      any was, units no one held are handed out. */
  ghost predicate Bought(held: map<nat, Option<nat>>, held': map<nat, Option<nat>>, grew: bool, answer: Option<nat>,
                         h: nat, n: nat) {
    && (grew ==> answer.Some?)
    && var all := if grew then Extended(held, answer.value, AtLeast(n)) else held;
       Spare(all, h, n) && held' == Granted(all, h, n)
  }

  class Heap {
    var ptr: map<nat, nat>
    var size: Sizes
    var freep: nat
    /** The end of the memory obtained from sbrk. */
    ghost var brk: nat
    ghost var cycle: seq<nat>
    ghost var live: set<nat>
    ghost var own: map<nat, nat>

    /** Before the first malloc nothing is set up. */
    ghost predicate Valid()
      reads this
    {
      if freep == 0 then BASE < brk && cycle == [] && live == {} && own == map[] else Ready()
    }

    ghost predicate Ready()
      reads this
    {
      && freep != 0 && freep in cycle && Cycle(cycle, ptr) && Apart(cycle, size) && Tiled(cycle, live, size, own)
      && BASE < brk && (forall u :: u in own ==> u < brk)
    }

    constructor (start: nat)
      requires BASE < start
      ensures Valid() && live == {} && own == map[] && brk == start
    {
      ptr, size, freep := map[], map[], 0;
      brk, cycle, live, own := start, [], {}, map[];
    }

    ghost function Now(): (m: Memory)
      reads this
    {
      Memory(cycle, live, ptr, size, own)
    }

    /** The scan of free: it ends, at the last free block below bp. */
    method FindPlace(bp: nat) returns (p: nat, ghost t: nat)
      requires freep in cycle && Cycle(cycle, ptr) && BASE < bp && bp !in cycle
      ensures t < |cycle| && p == cycle[t] && 0 < p < bp && (t + 1 < |cycle| ==> bp < cycle[t + 1])
              && Link(cycle, ptr, t)
    {
      p := freep;
      ghost var i: nat :| i < |cycle| && cycle[i] == p;
      t := Place(cycle, bp);
      while !(bp > p && bp < ptr[p])
        invariant i < |cycle| && cycle[i] == p && Link(cycle, ptr, i)
        decreases Dist(i, t, |cycle|)
      {
        if p >= ptr[p] && (bp > p || bp < ptr[p]) {
          break;
        }
        p, i := ptr[p], Next(i, |cycle|);
      }
    }

    /** The two tests at the end of free, on the block p before bp. */
    method Coalesce(bp: nat, p: nat, ghost t: nat)
      requires Fits(Now(), t, bp) && Apart(cycle, size) && p == cycle[t] && Link(cycle, ptr, t)
      modifies this`ptr, this`size
      ensures var m2 := Right(old(Now()), t, bp);
              && t + 1 < |m2.c| && m2.c[t] in m2.size && m2.c[t + 1] in m2.size
              && size == Left(m2, t).size && ptr == Left(m2, t).ptr
    {
      hide Tiled;
      hide Cycle;
      hide Apart;
      hide Right;
      hide Left;
      hide Holders;
      hide Released;
      ghost var m := Now();
      FreedOk(m, t, bp);
      ghost var m2 := Right(m, t, bp);
      RightFields(m, t, bp);
      LeftFields(m2, t);
      NextLink(m, t);
      if bp + size[bp] == ptr[p] {
        size := size[bp := size[bp] + size[ptr[p]]];
        ptr := ptr[bp := ptr[ptr[p]]];
      } else {
        ptr := ptr[bp := ptr[p]];
      }
      assert size == m2.size;
      assert ptr[p := bp] == m2.ptr;
      if p + size[p] == bp {
        size := size[p := size[p] + size[bp]];
        ptr := ptr[p := ptr[bp]];
      } else {
        ptr := ptr[p := bp];
      }
    }

    /** free: the units of the block are free, every other unit has the holder it
        had. The list is left at the block before. */
    method Free(ap: nat)
      requires Valid() && ap > 0 && ap - 1 in live
      modifies this`ptr, this`size, this`freep, this`cycle, this`live, this`own
      ensures Ready() && live == old(live) - {ap - 1}
      ensures Holders(own, live) == Released(old(Holders(own, live)), ap - 1)
      ensures forall h :: h in live ==> h in size && h in old(size) && size[h] == old(size)[h]
      ensures ap - 1 in own && own[ap - 1] in size && ap - 1 in old(size) && old(size)[ap - 1] <= size[own[ap - 1]]
      ensures own[ap - 1] == freep || (freep in ptr && own[ap - 1] == ptr[freep])
    {
      hide Tiled;
      hide Cycle;
      hide Apart;
      hide Right;
      hide Left;
      hide Holders;
      hide Released;
      var bp := ap - 1;
      ghost var m := Now();
      Sized(m, bp);
      var p;
      ghost var t;
      p, t := FindPlace(bp);
      FreedOk(m, t, bp);
      Coalesce(bp, p, t);
      freep := p;
      ghost var r := Left(Right(m, t, bp), t);
      cycle, live, own := r.c, r.live, r.own;
    }

    /** malloc's rounding: whole header units, one of them for the header. */
    static function Units(nbytes: nat): (n: nat)
      ensures 0 < n && nbytes <= (n - 1) * HEADER < nbytes + HEADER
    {
      (nbytes + HEADER - 1) / HEADER + 1
    }

    /** morecore: asks sbrk for memory, and frees what it gets. `answer` is where
        the new memory starts, if there is any. */
    method Morecore(nu: nat, answer: Option<nat>) returns (p: nat)
      requires Ready() && (answer.Some? ==> brk <= answer.value)
      modifies this
      ensures Ready() && live == old(live)
      ensures forall h :: h in live ==> h in size && h in old(size) && size[h] == old(size)[h]
      ensures answer.None? ==> p == 0 && Now() == old(Now())
      ensures answer.Some? ==>
                && p == freep && Holders(own, live) == Extended(old(Holders(own, live)), answer.value, AtLeast(nu))
                && ((freep in size && size[freep] >= nu)
                    || (freep in ptr && ptr[freep] in size && size[ptr[freep]] >= nu))
    {
      hide Tiled;
      hide Cycle;
      hide Apart;
      hide Holders;
      hide Extended;
      LiveSized(Now());
      var n := AtLeast(nu);
      if answer.None? {
        return 0;
      }
      var hp := answer.value;
      ExtendedOk(Now(), hp, n, brk);
      size := size[hp := n];
      live := live + {hp};
      own := Extend(own, hp, n);
      brk := hp + n;
      Free(hp + 1);
      ReleaseNew(old(own), old(live), hp, n);
      p := freep;
    }

    /** The part of malloc's loop body that hands out a block that is large
        enough. */
    method Take(prevp: nat, p: nat, nunits: nat, ghost k: nat) returns (h: nat)
      requires Ready() && k < |cycle| && prevp == cycle[k] && p == cycle[Next(k, |cycle|)]
      requires p in size && 0 < nunits <= size[p]
      modifies this`ptr, this`size, this`freep, this`cycle, this`live, this`own
      ensures Ready() && h !in old(live) && live == old(live) + {h} && h in size && size[h] == nunits
      ensures forall g :: g in old(live) ==> g in size && g in old(size) && size[g] == old(size)[g]
      ensures Spare(old(Holders(own, live)), h, nunits)
              && Holders(own, live) == Granted(old(Holders(own, live)), h, nunits)
    {
      hide Tiled;
      hide Cycle;
      hide Apart;
      hide Holders;
      hide Granted;
      hide Spare;
      ghost var m := Now();
      LiveSized(m);
      NextLink(m, k);
      NotBase(m, k);
      if size[p] == nunits {
        TakenOk(m, k);
        TakenApart(m, k);
        TakenHolders(m, k);
        ptr := ptr[prevp := ptr[p]];
        h := p;
        ghost var r := Taken(m, k);
        cycle, live := r.c, r.live;
      } else {
        SplitOk(m, p, nunits);
        SplitHolders(m, p, nunits);
        SplitApart(m, p, nunits);
        NewBlock(m, p, nunits);
        ghost var r := Split(m, p, nunits);
        size := size[p := size[p] - nunits];
        h := p + size[p];
        size := size[h := nunits];
        live, own := r.live, r.own;
      }
      freep := prevp;
    }

    /** The first call of malloc makes a list of `base` alone. */
    method Start()
      requires Valid() && freep == 0
      modifies this`ptr, this`size, this`freep, this`cycle
      ensures Ready() && cycle == [BASE] && size[BASE] == 0 && freep == BASE
    {
      ptr := map[BASE := BASE];
      size := map[BASE := 0];
      freep := BASE;
      cycle := [BASE];
      assert forall h: nat :: !Block(cycle, live, h);
    }

    /** malloc's loop. */
    method Search(nunits: nat, answer: Option<nat>) returns (res: Option<nat>, ghost grew: bool)
      requires Ready() && nunits > 0 && (answer.Some? ==> brk <= answer.value)
      modifies this
      ensures Ready()
      ensures grew <==> NoFit(old(cycle), old(size), nunits) && answer.Some?
      ensures res.None? <==> NoFit(old(cycle), old(size), nunits) && answer.None?
      ensures res.None? ==> live == old(live) && Holders(own, live) == old(Holders(own, live))
      ensures res.Some? ==>
                && res.value > 0 && var h := res.value - 1;
                && h !in old(live) && live == old(live) + {h} && h in size && size[h] == nunits
                && Bought(old(Holders(own, live)), Holders(own, live), grew, answer, h, nunits)
      ensures forall g :: g in old(live) ==> g in size && g in old(size) && size[g] == old(size)[g]
    {
      hide Tiled;
      hide Cycle;
      hide Apart;
      hide Holders;
      hide Extended;
      hide Granted;
      hide Spare;
      hide Passed;
      hide NoFit;
      hide Dist;
      hide Next;
      ghost var m := Now();
      LiveSized(m);
      ghost var f: nat :| f < |cycle| && cycle[f] == freep;
      ghost var k: nat := f;
      Next1(m, k);
      NonePassed(m, nunits, f);
      var prevp := freep;
      var p := ptr[prevp];
      grew := false;
      while true
        invariant Ready() && live == m.live
        invariant forall g :: g in live ==> g in size && g in m.size && size[g] == m.size[g]
        invariant k < |cycle| && prevp == cycle[k] && Next(k, |cycle|) < |cycle| && p == cycle[Next(k, |cycle|)]
        invariant f < |cycle| && cycle[f] == freep
        invariant !grew ==> Now() == m && brk == old(brk) && Passed(cycle, size, nunits, Next(k, |cycle|), f)
        invariant grew ==> answer.Some? && NoFit(m.c, m.size, nunits)
        invariant grew ==> Holders(own, live) == Extended(Holders(m.own, m.live), answer.value, AtLeast(nunits))
        invariant grew ==> freep in size
                           && (size[freep] >= nunits
                               || (freep in ptr && p == ptr[freep] && p in size && size[p] >= nunits))
        decreases !grew, Dist(Next(k, |cycle|), f, |cycle|)
      {
        Next1(Now(), k);
        if size[p] >= nunits {
          Found(m, p, nunits);
          var h := Take(prevp, p, nunits, k);
          return Some(h + 1), grew;
        }
        if p == freep {
          assert !grew;
          AllPassed(m, nunits, Next(k, |cycle|), f);
          p := Morecore(nunits, answer);
          if p == 0 {
            return None, grew;
          }
          grew := true;
          f :| f < |cycle| && cycle[f] == freep;
          k := f;
        } else {
          OnePassed(Now(), nunits, Next(k, |cycle|), f);
          k := Next(k, |cycle|);
        }
        Next1(Now(), k);
        prevp := p;
        p := ptr[p];
      }
    }

    /** malloc: a block of the right size from memory that no one held. It fails
        only if no free block is large enough and sbrk gives no more, and asks
        sbrk, at most once, only if no free block is large enough. */
    method Malloc(nbytes: nat, answer: Option<nat>) returns (res: Option<nat>, ghost grew: bool)
      requires Valid() && nbytes <= MAXREQUEST && (answer.Some? ==> brk <= answer.value)
      modifies this
      ensures Ready()
      ensures grew <==> NoFit(old(cycle), old(size), Units(nbytes)) && answer.Some?
      ensures res.None? <==> NoFit(old(cycle), old(size), Units(nbytes)) && answer.None?
      ensures res.None? ==> live == old(live) && Holders(own, live) == old(Holders(own, live))
      ensures res.Some? ==>
                && res.value > 0 && var h := res.value - 1;
                && h !in old(live) && live == old(live) + {h} && h in size && size[h] == Units(nbytes)
                && Bought(old(Holders(own, live)), Holders(own, live), grew, answer, h, Units(nbytes))
      ensures forall g :: g in old(live) ==> g in size && g in old(size) && size[g] == old(size)[g]
    {
      hide Tiled;
      hide Cycle;
      hide Apart;
      hide Holders;
      hide Bought;
      var nunits := Units(nbytes);
      if freep == 0 {
        Start();
      }
      res, grew := Search(nunits, answer);
    }
  }

  /** When the search begins, no block has been met. */
  lemma NonePassed(m: Memory, n: nat, f: nat)
    requires f < |m.c|
    ensures Passed(m.c, m.size, n, Next(f, |m.c|), f)
  {
  }

  lemma Found(m: Memory, p: nat, n: nat)
    ensures p in m.c && p in m.size && m.size[p] >= n ==> !NoFit(m.c, m.size, n)
  {
  }

  lemma Next1(m: Memory, k: nat)
    requires m.Ok() && k < |m.c|
    ensures Link(m.c, m.ptr, k) && Next(k, |m.c|) < |m.c|
    ensures m.c[k] in m.size && m.c[Next(k, |m.c|)] in m.size && m.c[k] in m.c && m.c[Next(k, |m.c|)] in m.c
  {
    assert m.c[k] == BASE || Block(m.c, m.live, m.c[k]);
    var n := m.c[Next(k, |m.c|)];
    assert n == BASE || Block(m.c, m.live, n);
  }

  /** A block of positive size is not `base`. */
  lemma NotBase(m: Memory, k: nat)
    requires m.Ok() && k < |m.c| && m.c[Next(k, |m.c|)] in m.size && m.size[m.c[Next(k, |m.c|)]] > 0
    ensures k + 1 < |m.c| && m.c[k + 1] != BASE && m.c[k] in m.c && m.c[k + 1] in m.c && m.c[k] > 0
    ensures Taken(m, k).c[k] == m.c[k] && m.c[k] in Taken(m, k).c
  {
    assert m.c[0] <= m.c[k];
    assert Taken(m, k).c[k] == m.c[k];
  }

  lemma NextLink(m: Memory, t: nat)
    requires m.Ok() && t < |m.c|
    ensures Link(m.c, m.ptr, Next(t, |m.c|)) && m.c[Next(t, |m.c|)] in m.c
    ensures t + 1 < |m.c| ==> Next(Next(t, |m.c|), |m.c|) == Next(t + 1, |m.c|)
  {
  }

  /** Conversion to a 32-bit int. */
  function AsInt(x: nat): (r: int) {
    var y := x % 0x1_0000_0000;
    if y < 0x8000_0000 then y else y - 0x1_0000_0000
  }

  /** morecore asks sbrk for what it means to exactly when the request is no
      larger than MAXREQUEST. */
  lemma RequestFits(nbytes: nat)
    requires nbytes < 0x1_0000_0000
    ensures AsInt(AtLeast(Heap.Units(nbytes)) * HEADER) == AtLeast(Heap.Units(nbytes)) * HEADER <==>
              nbytes <= MAXREQUEST
  {
  }

  /** One byte more, and sbrk is asked for less than nothing. */
  lemma RequestWraps()
    ensures AsInt(AtLeast(Heap.Units(MAXREQUEST + 1)) * HEADER) == -0x8000_0000
  {
  }

  /** Blocks never overlap, whether on the list or handed out. */
  lemma BlocksApart(m: Memory, g: nat, h: nat, u: nat)
    requires m.Ok() && Block(m.c, m.live, g) && Block(m.c, m.live, h) && g in m.size && h in m.size
    requires g <= u < g + m.size[g] && h <= u < h + m.size[h]
    ensures g == h
  {
    assert Covers(m.size, m.own, g) && Covers(m.size, m.own, h);
    assert u in m.own && m.own[u] == g;
  }

  ghost function Pick(bs: set<nat>): (h: nat)
    requires bs != {}
    ensures h in bs
  {
    var h :| h in bs; h
  }

  /** The sizes of some blocks together. */
  ghost function Sum(bs: set<nat>, size: Sizes): (n: nat) {
    if bs == {} then 0 else (if Pick(bs) in size then size[Pick(bs)] else 0) + Sum(bs - {Pick(bs)}, size)
  }

  ghost function UnitsOf(own: map<nat, nat>, bs: set<nat>): (r: set<nat>) {
    set u | u in own && own[u] in bs
  }

  lemma UnitsOne(m: Memory, h: nat)
    requires m.Ok() && Block(m.c, m.live, h)
    ensures h in m.size && |UnitsOf(m.own, {h})| == m.size[h]
  {
    hide Cycle;
    hide Tiled;
    Owners(m, h);
    assert UnitsOf(m.own, {h}) == Interval(h, m.size[h]);
  }

  lemma {:induction false} SumIs(m: Memory, bs: set<nat>)
    requires m.Ok() && forall h :: h in bs ==> Block(m.c, m.live, h)
    ensures |UnitsOf(m.own, bs)| == Sum(bs, m.size)
    decreases bs
  {
    hide Cycle;
    hide Tiled;
    hide Block;
    if bs == {} {
      assert UnitsOf(m.own, bs) == {};
    } else {
      var h := Pick(bs);
      SumIs(m, bs - {h});
      UnitsOne(m, h);
      assert UnitsOf(m.own, bs) == UnitsOf(m.own, bs - {h}) + UnitsOf(m.own, {h});
    }
  }

  /** The sizes of the free blocks and of those handed out add up to the units
      obtained from sbrk. */
  lemma Conserved(m: Memory)
    requires m.Ok()
    ensures |m.own| == Sum(m.live, m.size) + Sum((set h | h in m.c && h != BASE), m.size)
  {
    hide Cycle;
    var free := set h | h in m.c && h != BASE;
    assert forall h: nat :: h in m.live || h in free <==> Block(m.c, m.live, h);
    SumIs(m, m.live);
    SumIs(m, free);
    forall u | u in m.own
      ensures m.own[u] in m.live || m.own[u] in free
    {
      assert Owned(m.c, m.live, m.size, m.own, u);
    }
    hide Tiled;
    assert m.own.Keys == UnitsOf(m.own, m.live) + UnitsOf(m.own, free);
    assert UnitsOf(m.own, m.live) !! UnitsOf(m.own, free) by { LiveSized(m); }
    assert |m.own| == |m.own.Keys|;
  }
}
