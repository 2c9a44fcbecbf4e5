/** kernel/bio.c: the buffer cache, a circular doubly linked list threaded
    through a fixed array of buffers, most recently released first. */
module Bcache {
  import opened Base
  import opened Blocks

  /** Index of the list head bcache.head, which is not a buffer. */
  const HEAD := NBUF
  const ROOTDEV := 1

  type Slot = i: nat | i <= NBUF

  datatype Buf = Buf(dev: nat, blockno: nat, valid: bool, refcnt: nat, locked: bool, data: Block)

  /** The list from head back to head visits `order` in this order, and prev
      runs the same way backwards. */
  ghost predicate Ring(next: seq<Slot>, prev: seq<Slot>, order: seq<Slot>) {
    && |next| == |prev| == NBUF + 1
    && (forall i :: 0 <= i < |order| ==> order[i] != HEAD)
    && (forall i, j :: 0 <= i < j < |order| ==> order[i] != order[j])
    && var r := [HEAD] + order + [HEAD];
       forall i :: 0 <= i <= |order| ==> next[r[i]] == r[i + 1] && prev[r[i + 1]] == r[i]
  }

  function Without<T>(s: seq<T>, k: nat): (r: seq<T>)
    requires k < |s|
  {
    s[..k] + s[k + 1..]
  }

  /** The four assignments that link b in right behind the head. */
  lemma PushFrontRing(next: seq<Slot>, prev: seq<Slot>, order: seq<Slot>, b: Slot)
    requires Ring(next, prev, order) && b != HEAD && b !in order
    ensures Ring(next[b := next[HEAD]][HEAD := b], prev[b := HEAD][next[HEAD] := b], [b] + order)
  {
    var n, p, o := next[b := next[HEAD]][HEAD := b], prev[b := HEAD][next[HEAD] := b], [b] + order;
    var r, q := [HEAD] + order + [HEAD], [HEAD] + o + [HEAD];
    assert next[HEAD] == next[r[0]] == r[1];
    forall i | 0 <= i <= |o|
      ensures n[q[i]] == q[i + 1] && p[q[i + 1]] == q[i]
    {
      if i >= 2 {
        assert q[i] == r[i - 1] && q[i + 1] == r[i];
        assert next[r[i - 1]] == r[i] && prev[r[i]] == r[i - 1];
      }
    }
  }

  /** The two assignments that unlink b. */
  lemma UnlinkRing(next: seq<Slot>, prev: seq<Slot>, order: seq<Slot>, k: nat)
    requires Ring(next, prev, order) && k < |order|
    ensures var b := order[k];
            Ring(next[prev[b] := next[b]], prev[next[b] := prev[b]], Without(order, k))
  {
    var b := order[k];
    var n, p, o := next[prev[b] := next[b]], prev[next[b] := prev[b]], Without(order, k);
    var r, q := [HEAD] + order + [HEAD], [HEAD] + o + [HEAD];
    assert r[k + 1] == b;
    assert next[r[k + 1]] == r[k + 2] && prev[r[k + 1]] == r[k];
    forall i | 0 <= i <= |o|
      ensures n[q[i]] == q[i + 1] && p[q[i + 1]] == q[i]
    {
      assert q[i] == if i <= k then r[i] else r[i + 1];
      assert q[i + 1] == if i + 1 <= k then r[i + 1] else r[i + 2];
      assert next[r[i]] == r[i + 1] && prev[r[i + 1]] == r[i];
      assert next[r[i + 1]] == r[i + 2] && prev[r[i + 2]] == r[i + 1];
    }
  }

  lemma LinkedNeighbours(next: seq<Slot>, prev: seq<Slot>, order: seq<Slot>, k: nat)
    requires Ring(next, prev, order) && k < |order|
    ensures next[order[k]] != order[k] && prev[order[k]] != order[k]
    ensures order[k] !in Without(order, k)
  {
    var r := [HEAD] + order + [HEAD];
    assert r[k + 1] == order[k] && next[r[k + 1]] == r[k + 2] && prev[r[k + 1]] == r[k];
  }

  /** Buffer f holds block b of the root device. */
  predicate Is(f: Buf, b: nat) {
    f.dev == ROOTDEV && f.blockno == b
  }

  ghost predicate Cached(buf: seq<Buf>, b: nat) {
    exists i :: 0 <= i < |buf| && Is(buf[i], b)
  }

  /** No two buffers for one block. Buffers never used carry device 0 and do
      share block number 0. */
  ghost predicate Unique(buf: seq<Buf>) {
    forall i, j :: 0 <= i < j < |buf| && buf[i].dev != 0 ==>
        !(buf[i].dev == buf[j].dev && buf[i].blockno == buf[j].blockno)
  }

  /** No two buffers for one block of a device. */
  ghost predicate OneBuffer(buf: seq<Buf>, dev: nat) {
    forall i, j :: 0 <= i < j < |buf| && buf[i].dev == dev == buf[j].dev ==> buf[i].blockno != buf[j].blockno
  }

  lemma UniqueDevices(buf: seq<Buf>)
    ensures Unique(buf) <==> forall dev: nat :: dev != 0 ==> OneBuffer(buf, dev)
  {
    if (forall dev: nat :: dev != 0 ==> OneBuffer(buf, dev)) {
      forall i, j | 0 <= i < j < |buf| && buf[i].dev != 0
        ensures !(buf[i].dev == buf[j].dev && buf[i].blockno == buf[j].blockno)
      {
        assert OneBuffer(buf, buf[i].dev);
      }
    }
  }

  /** The buffers binit leaves are all block 0 of device 0. */
  lemma SharedStart(buf: seq<Buf>)
    requires |buf| > 1 && forall i :: 0 <= i < |buf| ==> buf[i].dev == 0 && buf[i].blockno == 0
    ensures forall dev: nat :: OneBuffer(buf, dev) <==> dev != 0
  {
    assert buf[0].dev == buf[1].dev == 0 && buf[0].blockno == buf[1].blockno;
    assert !OneBuffer(buf, 0);
  }

  /** A buffer nobody refers to may be recycled, so it must mirror the disk. */
  ghost predicate Coherent(buf: seq<Buf>, disk: seq<Block>) {
    forall i :: 0 <= i < |buf| && buf[i].dev != 0 ==>
      && buf[i].dev == ROOTDEV && buf[i].blockno < |disk|
      && (buf[i].valid && buf[i].refcnt == 0 ==> buf[i].data == disk[buf[i].blockno])
  }

  /** The latest contents of a block: the valid cached copy, else the disk. */
  ghost function Latest(buf: seq<Buf>, disk: seq<Block>, b: nat): (r: Block)
    requires b < |disk|
  {
    if i :| 0 <= i < |buf| && Is(buf[i], b) && buf[i].valid then buf[i].data else disk[b]
  }

  lemma LatestIs(buf: seq<Buf>, disk: seq<Block>, b: nat, i: nat)
    requires b < |disk| && Unique(buf) && i < |buf| && Is(buf[i], b)
    ensures Latest(buf, disk, b) == if buf[i].valid then buf[i].data else disk[b]
  {
  }

  /** What bget makes of the buffer it picks: one more reference to a buffer of
      the block, or a recycled buffer; locked either way. */
  function Granted(f: Buf, b: nat): (r: Buf) {
    if Is(f, b) then f.(refcnt := f.refcnt + 1, locked := true)
    else f.(dev := ROOTDEV, blockno := b, valid := false, refcnt := 1, locked := true)
  }

  /** i is the least recently released buffer nobody refers to. */
  ghost predicate LeastRecent(buf: seq<Buf>, order: seq<Slot>, i: Slot) {
    exists k :: 0 <= k < |order| && order[k] == i && i < |buf| && buf[i].refcnt == 0
      && forall j :: k < j < |order| ==> order[j] < |buf| && buf[order[j]].refcnt > 0
  }

  lemma GrantedKeeps(buf: seq<Buf>, disk: seq<Block>, i: nat, b: nat)
    requires Unique(buf) && Coherent(buf, disk) && i < |buf| && b < |disk|
    requires Is(buf[i], b) || (!Cached(buf, b) && buf[i].refcnt == 0)
    ensures Unique(buf[i := Granted(buf[i], b)]) && Coherent(buf[i := Granted(buf[i], b)], disk)
    ensures forall c :: 0 <= c < |disk| ==> Latest(buf[i := Granted(buf[i], b)], disk, c) == Latest(buf, disk, c)
  {
    var g := buf[i := Granted(buf[i], b)];
    forall c | 0 <= c < |disk|
      ensures Latest(g, disk, c) == Latest(buf, disk, c)
    {
      if j :| 0 <= j < |buf| && Is(buf[j], c) {
        LatestIs(buf, disk, c, j);
        if j == i && b != c {
          assert !Cached(g, c);
        } else {
          LatestIs(g, disk, c, j);
        }
      } else if b == c {
        LatestIs(g, disk, c, i);
      }
    }
  }

  lemma FillKeeps(buf: seq<Buf>, disk: seq<Block>, i: nat)
    requires Unique(buf) && Coherent(buf, disk) && i < |buf| && buf[i].dev == ROOTDEV
    ensures var g := buf[i := buf[i].(valid := true, data := Latest(buf, disk, buf[i].blockno))];
            && Unique(g) && (buf[i].refcnt > 0 ==> Coherent(g, disk))
            && forall c :: 0 <= c < |disk| ==> Latest(g, disk, c) == Latest(buf, disk, c)
  {
    var g := buf[i := buf[i].(valid := true, data := Latest(buf, disk, buf[i].blockno))];
    forall c | 0 <= c < |disk|
      ensures Latest(g, disk, c) == Latest(buf, disk, c)
    {
      if j :| 0 <= j < |buf| && Is(buf[j], c) {
        LatestIs(buf, disk, c, j);
        LatestIs(g, disk, c, j);
      }
    }
  }

  lemma FillLatest(buf: seq<Buf>, disk: seq<Block>, i: nat, data: Block)
    requires Unique(buf) && i < |buf| && buf[i].dev == ROOTDEV && buf[i].valid && buf[i].blockno < |disk|
    ensures forall c :: 0 <= c < |disk| ==>
              Latest(buf[i := buf[i].(data := data)], disk, c) == if c == buf[i].blockno then data
                else Latest(buf, disk, c)
  {
    var g := buf[i := buf[i].(data := data)];
    forall c | 0 <= c < |disk|
      ensures Latest(g, disk, c) == if c == buf[i].blockno then data else Latest(buf, disk, c)
    {
      if c == buf[i].blockno {
        LatestIs(g, disk, c, i);
      } else if j :| 0 <= j < |buf| && Is(buf[j], c) {
        LatestIs(buf, disk, c, j);
        LatestIs(g, disk, c, j);
      } else {
        assert !Cached(g, c);
      }
    }
  }

  lemma WriteLatest(buf: seq<Buf>, disk: seq<Block>, i: nat)
    requires Unique(buf) && i < |buf| && buf[i].dev == ROOTDEV && buf[i].blockno < |disk|
    ensures buf[i].valid ==>
              forall c :: 0 <= c < |disk| ==>
                  Latest(buf, disk[buf[i].blockno := buf[i].data], c) == Latest(buf, disk, c)
  {
    if buf[i].valid {
      LatestIs(buf, disk, buf[i].blockno, i);
    }
  }

  /** Changing a buffer's lock or count leaves every block's contents alone. */
  lemma CountKeeps(buf: seq<Buf>, disk: seq<Block>, i: nat, f: Buf)
    requires Unique(buf) && Coherent(buf, disk) && i < |buf| && buf[i].dev == ROOTDEV
    requires f.dev == buf[i].dev && f.blockno == buf[i].blockno && f.valid == buf[i].valid && f.data == buf[i].data
    requires f.refcnt == 0 && f.valid ==> f.data == disk[f.blockno]
    ensures Unique(buf[i := f]) && Coherent(buf[i := f], disk)
    ensures forall c :: 0 <= c < |disk| ==> Latest(buf[i := f], disk, c) == Latest(buf, disk, c)
  {
    forall c | 0 <= c < |disk|
      ensures Latest(buf[i := f], disk, c) == Latest(buf, disk, c)
    {
      if j :| 0 <= j < |buf| && Is(buf[j], c) {
        LatestIs(buf, disk, c, j);
        LatestIs(buf[i := f], disk, c, j);
      }
    }
  }

  class Cache {
    var buf: seq<Buf>
    var next: seq<Slot>
    var prev: seq<Slot>
    var disk: seq<Block>
    /** The buffers from most to least recently released. */
    ghost var order: seq<Slot>
    /** The disk after each completed block write, oldest first. */
    ghost var trace: seq<seq<Block>>

    ghost predicate Valid()
      reads this
    {
      && |buf| == NBUF
      && Ring(next, prev, order)
      && |order| == NBUF && (forall i :: 0 <= i < NBUF ==> i in order)
      && Unique(buf) && Coherent(buf, disk)
      && (forall i :: 0 <= i < NBUF && buf[i].locked ==> buf[i].refcnt > 0)
    }

    /** binit, over a disk that already exists. */
    constructor (disk: seq<Block>)
      ensures Valid() && this.disk == disk && trace == []
      ensures forall i :: 0 <= i < NBUF ==> buf[i].dev == 0 && buf[i].refcnt == 0 && !buf[i].locked
      ensures forall dev: nat :: OneBuffer(buf, dev) <==> dev != 0
    {
      this.disk := disk;
      trace := [];
      buf := seq(NBUF, _ => Buf(0, 0, false, 0, false, ZeroBlock));
      next := seq(NBUF + 1, _ => HEAD);
      prev := seq(NBUF + 1, _ => HEAD);
      order := [];
      new;
      var b := 0;
      while b < NBUF
        invariant 0 <= b <= NBUF
        invariant Ring(next, prev, order) && |order| == b
        invariant forall i: Slot :: i in order <==> i < b
        invariant this.disk == disk && trace == []
        invariant |buf| == NBUF && forall i :: 0 <= i < NBUF ==> buf[i] == Buf(0, 0, false, 0, false, ZeroBlock)
      {
        PushFrontRing(next, prev, order, b);
        next := next[b := next[HEAD]];
        prev := prev[b := HEAD];
        prev := prev[next[HEAD] := b];
        next := next[HEAD := b];
        order := [b] + order;
        b := b + 1;
      }
      SharedStart(buf);
    }

    /** bget's first loop: look for the block from the most recent buffer on. */
    method FindCached(dev: nat, blockno: nat) returns (res: Option<Slot>)
      requires Valid()
      ensures res.Some? ==> res.value < NBUF && buf[res.value].dev == dev && buf[res.value].blockno == blockno
      ensures res.None? ==> forall i :: 0 <= i < NBUF ==> !(buf[i].dev == dev && buf[i].blockno == blockno)
    {
      ghost var r := [HEAD] + order + [HEAD];
      assert next[r[0]] == r[1];
      var b := next[HEAD];
      ghost var k := 0;
      while b != HEAD
        invariant 0 <= k <= NBUF && b == r[k + 1]
        invariant forall j :: 0 <= j < k ==> !(buf[order[j]].dev == dev && buf[order[j]].blockno == blockno)
        decreases NBUF - k
      {
        if buf[b].dev == dev && buf[b].blockno == blockno {
          return Some(b);
        }
        assert next[r[k + 1]] == r[k + 2];
        b := next[b];
        k := k + 1;
      }
      forall i | 0 <= i < NBUF
        ensures !(buf[i].dev == dev && buf[i].blockno == blockno)
      {
        assert i in order;
      }
      res := None;
    }

    /** bget's second loop: look for an unused buffer from the least recent on. */
    method FindUnused() returns (res: Option<Slot>)
      requires Valid()
      ensures res.None? <==> forall i :: 0 <= i < NBUF ==> buf[i].refcnt > 0
      ensures res.Some? ==> res.value < NBUF && LeastRecent(buf, order, res.value)
    {
      ghost var r := [HEAD] + order + [HEAD];
      assert prev[r[NBUF + 1]] == r[NBUF];
      var b := prev[HEAD];
      ghost var k := NBUF;
      while b != HEAD
        invariant 0 <= k <= NBUF && b == r[k]
        invariant forall j :: k <= j < NBUF ==> buf[order[j]].refcnt > 0
        decreases k
      {
        if buf[b].refcnt == 0 {
          assert order[k - 1] == b;
          return Some(b);
        }
        assert prev[r[k]] == r[k - 1];
        b := prev[b];
        k := k - 1;
      }
      forall i | 0 <= i < NBUF
        ensures buf[i].refcnt > 0
      {
        assert i in order;
      }
      res := None;
    }

    /** bget. None is the panic "no buffers". A locked buffer of the block would
        make the caller sleep, which the concurrent model covers. */
    method Bget(dev: nat, blockno: nat) returns (res: Option<Slot>)
      requires Valid() && dev == ROOTDEV && blockno < |disk|
      requires forall i :: 0 <= i < NBUF && Is(buf[i], blockno) ==> !buf[i].locked
      modifies this`buf
      ensures Valid()
      ensures res.None? <==> !Cached(old(buf), blockno) && forall i :: 0 <= i < NBUF ==> old(buf)[i].refcnt > 0
      ensures res.None? ==> buf == old(buf)
      ensures res.Some? ==>
                && res.value < NBUF && buf == old(buf)[res.value := Granted(old(buf)[res.value], blockno)]
                && (Is(old(buf)[res.value], blockno)
                    || (!Cached(old(buf), blockno) && old(buf)[res.value].refcnt == 0
                        && LeastRecent(old(buf), order, res.value)))
      ensures forall c :: 0 <= c < |disk| ==> Latest(buf, disk, c) == old(Latest(buf, disk, c))
    {
      res := FindCached(dev, blockno);
      if res.Some? {
        var b := res.value;
        GrantedKeeps(buf, disk, b, blockno);
        buf := buf[b := buf[b].(refcnt := buf[b].refcnt + 1)];
        buf := buf[b := buf[b].(locked := true)];
        assert buf == old(buf)[b := Granted(old(buf)[b], blockno)];
        return;
      }
      res := FindUnused();
      if res.Some? {
        var b := res.value;
        GrantedKeeps(buf, disk, b, blockno);
        buf := buf[b := buf[b].(dev := dev, blockno := blockno, valid := false, refcnt := 1)];
        buf := buf[b := buf[b].(locked := true)];
        assert buf == old(buf)[b := Granted(old(buf)[b], blockno)];
      }
    }

    /** bread: the buffer comes back locked, valid, and holding the latest
        contents of the block whatever was evicted before. */
    method Bread(dev: nat, blockno: nat) returns (res: Option<Slot>)
      requires Valid() && dev == ROOTDEV && blockno < |disk|
      requires forall i :: 0 <= i < NBUF && Is(buf[i], blockno) ==> !buf[i].locked
      modifies this`buf
      ensures Valid()
      ensures res.None? <==> !Cached(old(buf), blockno) && forall i :: 0 <= i < NBUF ==> old(buf)[i].refcnt > 0
      ensures res.None? ==> buf == old(buf)
      ensures res.Some? ==>
                && res.value < NBUF
                && buf == old(buf)[res.value :=
                     Granted(old(buf)[res.value], blockno).(valid := true, data := old(Latest(buf, disk, blockno)))]
                && (Is(old(buf)[res.value], blockno)
                    || (!Cached(old(buf), blockno) && old(buf)[res.value].refcnt == 0
                        && LeastRecent(old(buf), order, res.value)))
      ensures forall c :: 0 <= c < |disk| ==> Latest(buf, disk, c) == old(Latest(buf, disk, c))
    {
      res := Bget(dev, blockno);
      if res.Some? {
        var b := res.value;
        ghost var got := buf;
        LatestIs(buf, disk, blockno, b);
        if !buf[b].valid {
          buf := buf[b := buf[b].(data := disk[buf[b].blockno])];
          buf := buf[b := buf[b].(valid := true)];
        }
        FillKeeps(got, disk, b);
        assert buf == got[b := got[b].(valid := true, data := Latest(got, disk, blockno))];
        assert buf == old(buf)[b :=
                        Granted(old(buf)[b], blockno).(valid := true, data := old(Latest(buf, disk, blockno)))];
      }
    }

    /** bwrite. Not holding the lock is the panic "bwrite". */
    method Bwrite(b: Slot) returns (ok: bool)
      requires Valid() && b < NBUF && buf[b].dev == ROOTDEV
      modifies this`disk, this`trace
      ensures ok == buf[b].locked
      ensures !ok ==> disk == old(disk) && trace == old(trace)
      ensures ok ==> Valid() && disk == old(disk)[buf[b].blockno := buf[b].data] && trace == old(trace) + [disk]
      ensures ok && buf[b].valid ==> forall c :: 0 <= c < |disk| ==> Latest(buf, disk, c) == old(Latest(buf, disk, c))
    {
      if !buf[b].locked {
        return false;
      }
      WriteLatest(buf, disk, b);
      disk := disk[buf[b].blockno := buf[b].data];
      trace := trace + [disk];
      ok := true;
    }

    /** memmove into a locked buffer. */
    method Fill(b: Slot, data: Block)
      requires Valid() && b < NBUF && buf[b].locked && buf[b].valid && buf[b].dev == ROOTDEV
      modifies this`buf
      ensures Valid() && buf == old(buf)[b := old(buf)[b].(data := data)]
      ensures forall c :: 0 <= c < |disk| ==>
                Latest(buf, disk, c) == if c == buf[b].blockno then data else old(Latest(buf, disk, c))
    {
      FillLatest(buf, disk, b, data);
      buf := buf[b := buf[b].(data := data)];
    }

    /** A client may drop the last reference only to a buffer that mirrors the
        disk: what it changed it must have logged, which pins the buffer. */
    ghost predicate MayDrop(b: Slot)
      reads this
    {
      && b < |buf| && buf[b].dev == ROOTDEV && buf[b].blockno < |disk| && buf[b].refcnt > 0
      && (buf[b].refcnt == 1 && buf[b].valid ==> buf[b].data == disk[buf[b].blockno])
    }

    /** brelse: not holding the lock is the panic "brelse"; the last release
        moves the buffer to the front of the list. */
    method Brelse(b: Slot) returns (ok: bool)
      requires Valid() && b < NBUF && MayDrop(b)
      modifies this`buf, this`next, this`prev, this`order
      ensures Valid()
      ensures ok == old(buf)[b].locked
      ensures !ok ==> buf == old(buf) && order == old(order)
      ensures ok ==> buf == old(buf)[b := old(buf)[b].(locked := false, refcnt := old(buf)[b].refcnt - 1)]
      ensures ok && old(buf)[b].refcnt > 1 ==> order == old(order)
      ensures ok && old(buf)[b].refcnt == 1 ==>
                exists k :: 0 <= k < NBUF && old(order)[k] == b && order == [b] + Without(old(order), k)
      ensures forall c :: 0 <= c < |disk| ==> Latest(buf, disk, c) == old(Latest(buf, disk, c))
    {
      if !buf[b].locked {
        return false;
      }
      CountKeeps(buf, disk, b, buf[b].(locked := false, refcnt := buf[b].refcnt - 1));
      buf := buf[b := buf[b].(locked := false)];
      buf := buf[b := buf[b].(refcnt := buf[b].refcnt - 1)];
      assert buf == old(buf)[b := old(buf)[b].(locked := false, refcnt := old(buf)[b].refcnt - 1)];
      if buf[b].refcnt == 0 {
        MoveToFront(b);
      }
      ok := true;
    }

    /** The relinking at the end of brelse. */
    method MoveToFront(b: Slot)
      requires Valid() && b < NBUF
      modifies this`next, this`prev, this`order
      ensures Valid()
      ensures exists k :: 0 <= k < NBUF && old(order)[k] == b && order == [b] + Without(old(order), k)
    {
      assert b in order;
      ghost var k :| 0 <= k < NBUF && order[k] == b;
      ghost var rest := Without(order, k);
      UnlinkRing(next, prev, order, k);
      LinkedNeighbours(next, prev, order, k);
      prev := prev[next[b] := prev[b]];
      next := next[prev[b] := next[b]];
      PushFrontRing(next, prev, rest, b);
      next := next[b := next[HEAD]];
      prev := prev[b := HEAD];
      prev := prev[next[HEAD] := b];
      next := next[HEAD := b];
      order := [b] + rest;
      forall i | 0 <= i < NBUF
        ensures i in order
      {
        assert i in old(order);
      }
    }

    method Bpin(b: Slot)
      requires Valid() && b < NBUF && buf[b].dev == ROOTDEV
      modifies this`buf
      ensures Valid() && buf == old(buf)[b := old(buf)[b].(refcnt := old(buf)[b].refcnt + 1)]
      ensures forall c :: 0 <= c < |disk| ==> Latest(buf, disk, c) == old(Latest(buf, disk, c))
    {
      CountKeeps(buf, disk, b, buf[b].(refcnt := buf[b].refcnt + 1));
      buf := buf[b := buf[b].(refcnt := buf[b].refcnt + 1)];
    }

    method Bunpin(b: Slot)
      requires Valid() && b < NBUF && MayDrop(b) && (buf[b].locked ==> buf[b].refcnt > 1)
      modifies this`buf
      ensures Valid() && buf == old(buf)[b := old(buf)[b].(refcnt := old(buf)[b].refcnt - 1)]
      ensures forall c :: 0 <= c < |disk| ==> Latest(buf, disk, c) == old(Latest(buf, disk, c))
    {
      CountKeeps(buf, disk, b, buf[b].(refcnt := buf[b].refcnt - 1));
      buf := buf[b := buf[b].(refcnt := buf[b].refcnt - 1)];
    }
  }
}
