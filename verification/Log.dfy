/** kernel/log.c as written: loops of bread, memmove, bwrite and brelse over
    the buffer cache, one thread at a time. The cache records the disk after
    every block write, so that "a crash between any two writes" is a statement
    about that record. */
module Log {
  import opened Base
  import opened Blocks
  import opened LogFormat
  import opened Bcache

  ghost predicate CachedValid(buf: seq<Buf>, b: nat) {
    exists i :: 0 <= i < |buf| && Is(buf[i], b) && buf[i].valid
  }

  /** No one uses the cache but the log, which pins these blocks once each. */
  ghost predicate Quiet(buf: seq<Buf>, pins: seq<nat>) {
    && (forall i :: 0 <= i < |buf| ==>
          !buf[i].locked && buf[i].refcnt == if buf[i].dev == ROOTDEV && buf[i].blockno in pins then 1 else 0)
    && (forall b :: b in pins ==> CachedValid(buf, b))
  }

  /** Two disks with the same header and the same home blocks. */
  ghost predicate AgreeHome(lay: Layout, d: Disk, e: Disk) {
    && lay.SameHome(d, e)
    && d[lay.start] == e[lay.start]
  }

  lemma QuietSwap(buf: seq<Buf>, pins: seq<nat>, i: nat, f: Buf)
    requires Quiet(buf, pins) && i < |buf| && buf[i].refcnt == 0
    requires f.refcnt == 0 && !f.locked && !(f.dev == ROOTDEV && f.blockno in pins)
    ensures Quiet(buf[i := f], pins)
  {
    forall b | b in pins
      ensures CachedValid(buf[i := f], b)
    {
      var j :| 0 <= j < |buf| && Is(buf[j], b) && buf[j].valid;
      assert Is(buf[i := f][j], b);
    }
  }

  ghost function Place(buf: seq<Buf>, b: nat): (i: nat)
    requires CachedValid(buf, b)
    ensures i < |buf| && Is(buf[i], b) && buf[i].valid
  {
    var i :| 0 <= i < |buf| && Is(buf[i], b) && buf[i].valid;
    i
  }

  lemma OnePlace(buf: seq<Buf>, b: nat, i: nat, j: nat)
    requires Unique(buf) && i < |buf| && j < |buf| && Is(buf[i], b) && Is(buf[j], b)
    ensures i == j
  {
  }

  // ---------- counting buffers ----------

  ghost function Elements(s: seq<nat>): (r: set<nat>) {
    set x | x in s
  }

  lemma {:induction false} DistinctCount(s: seq<nat>)
    ensures |Elements(s)| <= |s|
    ensures (forall i, j :: 0 <= i < j < |s| ==> s[i] != s[j]) ==> |Elements(s)| == |s|
  {
    if s != [] {
      var n := |s| - 1;
      DistinctCount(s[..n]);
      assert s == s[..n] + [s[n]];
      assert Elements(s) == Elements(s[..n]) + {s[n]};
    }
  }

  /** Fewer referenced blocks than buffers leave a buffer to recycle. */
  lemma SomeUnused(buf: seq<Buf>, q: seq<nat>)
    requires Unique(buf) && |q| < |buf|
    requires forall i :: 0 <= i < |buf| && buf[i].refcnt > 0 ==> buf[i].dev == ROOTDEV && buf[i].blockno in q
    ensures exists i :: 0 <= i < |buf| && buf[i].refcnt == 0
  {
    if forall i :: 0 <= i < |buf| ==> buf[i].refcnt > 0 {
      var s: seq<nat> := seq(|buf|, i requires 0 <= i < |buf| => buf[i].blockno);
      DistinctCount(s);
      DistinctCount(q);
      SubsetCount(Elements(s), Elements(q));
    }
  }

  /** As many pinned blocks as buffers leave none. */
  lemma NoneUnused(buf: seq<Buf>, pins: seq<nat>)
    requires Quiet(buf, pins) && |pins| == |buf|
    requires forall i, j :: 0 <= i < j < |pins| ==> pins[i] != pins[j]
    ensures forall i :: 0 <= i < |buf| ==> buf[i].refcnt > 0
  {
    assert forall k :: 0 <= k < |pins| ==> pins[k] in pins && CachedValid(buf, pins[k]);
    var home: seq<nat> := seq(|pins|, k requires 0 <= k < |pins| => Place(buf, pins[k]));
    assert forall k :: 0 <= k < |pins| ==> Is(buf[home[k]], pins[k]);
    DistinctCount(home);
    var all := Interval(0, |buf|);
    assert Elements(home) <= all;
    assert |all - Elements(home)| == |all| - |Elements(home)|;
    forall i | 0 <= i < |buf|
      ensures buf[i].refcnt > 0
    {
      assert i in all;
      assert all - Elements(home) == {};
      assert i in home;
    }
  }

  /** With the log's blocks pinned and nothing else in use, bread of a block
      outside the transaction fails exactly when every buffer is pinned. */
  lemma BufferForLog(buf: seq<Buf>, pins: seq<nat>, at: nat)
    requires Quiet(buf, pins) && Unique(buf) && |pins| <= |buf| && at !in pins
    requires forall i, j :: 0 <= i < j < |pins| ==> pins[i] != pins[j]
    ensures (!Cached(buf, at) && forall i :: 0 <= i < |buf| ==> buf[i].refcnt > 0) <==> |pins| == |buf|
  {
    if |pins| < |buf| {
      SomeUnused(buf, pins);
    } else {
      NoneUnused(buf, pins);
    }
  }

  /** A block the log does not pin reads from the cache as it is on disk. */
  lemma CleanOutside(buf: seq<Buf>, disk: seq<Block>, pins: seq<nat>, b: nat)
    requires Quiet(buf, pins) && Unique(buf) && Coherent(buf, disk) && b < |disk| && b !in pins
    ensures Latest(buf, disk, b) == disk[b]
  {
    if i :| 0 <= i < |buf| && Is(buf[i], b) {
      LatestIs(buf, disk, b, i);
    }
  }

  /** After one turn of install_trans: the log block's buffer and the home
      block's buffer are both unused, the latter having lost its pin. */
  lemma QuietUnpin(buf: seq<Buf>, pins: seq<nat>, rest: seq<nat>, x: nat, f: Buf, y: nat, g: Buf)
    requires Quiet(buf, pins) && Unique(buf) && x < |buf| && y < |buf| && x != y
    requires buf[x].refcnt == 0 && f.refcnt == 0 && !f.locked && f.blockno !in pins
    requires g.refcnt == 0 && !g.locked && g.blockno !in rest
    requires if pins == [] then rest == [] && buf[y].refcnt == 0
             else pins == [g.blockno] + rest && Is(buf[y], g.blockno)
    ensures Quiet(buf[x := f][y := g], rest)
  {
    var r := buf[x := f][y := g];
    forall b | b in rest
      ensures CachedValid(r, b)
    {
      assert b in pins;
      var j :| 0 <= j < |buf| && Is(buf[j], b) && buf[j].valid;
      assert Is(r[j], b) && r[j].valid;
    }
    forall i | 0 <= i < |r|
      ensures !r[i].locked && r[i].refcnt == if r[i].dev == ROOTDEV && r[i].blockno in rest then 1 else 0
    {
      assert buf[i].dev == ROOTDEV && buf[i].blockno in pins && i != y ==> buf[i].blockno in rest;
    }
  }

  /** Installing never touches the log region, so a crash after any number of
      installed blocks recovers to the same contents. */
  lemma InstallRecovers(lay: Layout, d: Disk, k: nat)
    requires lay.DiskOk(d) && k <= |HeaderOf(d[lay.start])|
    ensures var h := HeaderOf(d[lay.start]);
            var e := Install(lay, d, h, k);
            && lay.DiskOk(e) && HeaderOf(e[lay.start]) == h
            && (forall j :: 0 <= j < |h| ==> lay.Slot(e, j) == lay.Slot(d, j))
            && lay.SameHome(Recovered(lay, d), Recovered(lay, e))
  {
    hide Word;
    hide HeaderOf;
    hide Recovered;
    var h := HeaderOf(d[lay.start]);
    var e := Install(lay, d, h, k);
    forall b | 0 <= b < |d| && b !in h
      ensures e[b] == d[b]
    {
      InstallAt(lay, d, h, k, b);
    }
    RecoveredAgree(lay, d, e);
  }

  lemma InstallStep(lay: Layout, d: Disk, h: seq<nat>, k: nat)
    requires lay.Fits(d) && lay.HeaderOk(h) && k <= |h|
    ensures Install(lay, d, h, 0) == d
    ensures k < |h| ==> Install(lay, d, h, k + 1) == Install(lay, d, h, k)[h[k] := lay.Slot(d, k)]
  {
  }

  lemma InstallAll(lay: Layout, d: Disk)
    requires lay.DiskOk(d)
    ensures var h := HeaderOf(d[lay.start]);
            var e := Install(lay, d, h, |h|);
            lay.DiskOk(e) && HeaderOf(e[lay.start]) == h && Installed(lay, e, h, |h|)
  {
    hide Word;
    hide HeaderOf;
    hide Recovered;
    var h := HeaderOf(d[lay.start]);
    var e := Install(lay, d, h, |h|);
    InstallRecovers(lay, d, |h|);
    forall j | 0 <= j < |h|
      ensures e[h[j]] == lay.Slot(e, j)
    {
      InstallAt(lay, d, h, |h|, h[j]);
    }
  }

  /** A machine that lost power with disk d comes back with the home blocks of
      `want`. */
  ghost predicate RecoversTo(lay: Layout, d: Disk, want: Disk) {
    lay.DiskOk(d) && lay.SameHome(Recovered(lay, d), want)
  }

  lemma EmptyHeader(lay: Layout, d: Disk)
    requires lay.DiskOk(d) && HeaderOf(d[lay.start]) == []
    ensures RecoversTo(lay, d, d)
  {
    hide Word;
    hide HeaderOf;
    RecoveredInstalled(lay, d);
  }

  lemma AgreeHomeRecovers(lay: Layout, d: Disk, e: Disk)
    requires lay.DiskOk(d) && HeaderOf(d[lay.start]) == [] && AgreeHome(lay, e, d)
    ensures RecoversTo(lay, e, d) && HeaderOf(e[lay.start]) == []
  {
    hide Word;
    hide HeaderOf;
    hide Recovered;
    EmptyHeader(lay, e);
  }

  /** Once the header naming h is on disk, with every logged block's last
      contents in its log block, recovery restores what the cache showed. */
  lemma HeaderCommits(lay: Layout, d: Disk, h: seq<nat>, v: Block, want: Disk)
    requires lay.Fits(d) && lay.Fits(want) && lay.HeaderOk(h)
    requires forall j :: 0 <= j < |h| ==> lay.Slot(d, j) == want[h[j]]
    requires forall b :: 0 <= b < lay.size && lay.Home(b) && b !in h ==> d[b] == want[b]
    ensures RecoversTo(lay, d[lay.start := FillHeader(v, h)], want)
    ensures HeaderOf(d[lay.start := FillHeader(v, h)][lay.start]) == h
  {
    hide Word;
    hide HeaderOf;
    hide Recovered;
    hide FillHeader;
    HeaderRoundTrip(v, h);
    var e := d[lay.start := FillHeader(v, h)];
    forall b | 0 <= b < lay.size && lay.Home(b)
      ensures Recovered(lay, e)[b] == want[b]
    {
      RecoveredAt(lay, e, b);
      if b in h {
        var j :| 0 <= j < |h| && h[j] == b;
        assert lay.Slot(e, j) == lay.Slot(d, j);
      }
    }
  }

  /** Installing everything and erasing the header, crash or no crash after
      each write, keeps what recovery restores. */
  lemma InstallThenErase(lay: Layout, d: Disk, want: Disk, v: Block)
    requires RecoversTo(lay, d, want)
    ensures var h := HeaderOf(d[lay.start]);
            && (forall k :: 0 <= k <= |h| ==> RecoversTo(lay, Install(lay, d, h, k), want))
            && var e := Install(lay, d, h, |h|)[lay.start := FillHeader(v, [])];
               RecoversTo(lay, e, want) && HeaderOf(e[lay.start]) == [] && lay.SameHome(e, want)
  {
    hide Word;
    hide HeaderOf;
    hide Recovered;
    hide FillHeader;
    var h := HeaderOf(d[lay.start]);
    forall k | 0 <= k <= |h|
      ensures RecoversTo(lay, Install(lay, d, h, k), want)
    {
      InstallRecovers(lay, d, k);
    }
    var f := Install(lay, d, h, |h|);
    InstallAll(lay, d);
    HeaderRoundTrip(v, []);
    EraseHeader(lay, f, FillHeader(v, []));
    EmptyHeader(lay, f[lay.start := FillHeader(v, [])]);
  }

  class Log {
    const bc: Cache
    const lay: Layout
    /** The in-memory header: lh.n is the length. */
    var lh: seq<nat>
    var outstanding: int
    var committing: bool

    ghost predicate Valid()
      reads this, bc
    {
      bc.Valid() && lay.DiskOk(bc.disk) && lay.HeaderOk(lh)
    }

    constructor (bc: Cache, lay: Layout)
      ensures this.bc == bc && this.lay == lay && lh == [] && outstanding == 0 && !committing
    {
      this.bc := bc;
      this.lay := lay;
      lh := [];
      outstanding := 0;
      committing := false;
    }

    ghost function Seen(b: nat): (r: Block)
      reads bc
      requires b < |bc.disk|
    {
      Latest(bc.buf, bc.disk, b)
    }

    /** The end of both loop bodies: bwrite(w), bunpin(w) when installing a
        commit, brelse(o), brelse(w). */
    method PutAndRelease(w: Slot, o: Slot, unpin: bool)
      requires bc.Valid() && w < NBUF && o < NBUF && w != o
      requires bc.buf[w].locked && bc.buf[w].valid && bc.buf[w].dev == ROOTDEV
               && bc.buf[w].refcnt > (if unpin then 1 else 0)
      requires bc.buf[o].locked && bc.MayDrop(o) && bc.buf[o].blockno != bc.buf[w].blockno
      modifies bc
      ensures bc.Valid()
      ensures var f := old(bc.buf)[w];
              var g := old(bc.buf)[o];
              bc.buf == old(bc.buf)[w := f.(locked := false, refcnt := f.refcnt - (if unpin then 2 else 1))]
                                   [o := g.(locked := false, refcnt := g.refcnt - 1)]
      ensures bc.disk == old(bc.disk)[old(bc.buf)[w].blockno := old(bc.buf)[w].data]
      ensures bc.trace == old(bc.trace) + [bc.disk]
      ensures forall c :: 0 <= c < |bc.disk| ==> Seen(c) == old(Latest(bc.buf, bc.disk, c))
    {
      hide Ring;
      hide Latest;
      hide Unique;
      var ok := bc.Bwrite(w);
      if unpin {
        bc.Bunpin(w);
      }
      ok := bc.Brelse(o);
      ok := bc.Brelse(w);
    }

    /** The start of both loop bodies: bread two blocks, the second of them
        pinned by the log or not. None is bread's panic. */
    method ReadTwo(first: nat, second: nat, ghost pins: seq<nat>) returns (res: Option<(Slot, Slot)>)
      requires bc.Valid() && first < |bc.disk| && second < |bc.disk| && first != second
      requires Quiet(bc.buf, pins) && first !in pins && |pins| <= NBUF
      requires forall i, j :: 0 <= i < j < |pins| ==> pins[i] != pins[j]
      requires second in pins || pins == []
      modifies bc`buf
      ensures res.Some? <==> |pins| < NBUF
      ensures res.Some? ==>
                var (x, y) := res.value;
                && bc.Valid() && x < NBUF && y < NBUF && x != y
                && old(bc.buf)[x].refcnt == 0
                && bc.buf == old(bc.buf)[x := Buf(ROOTDEV, first, true, 1, true, old(Seen(first)))]
                                        [y := Buf(ROOTDEV, second, true,
                                                  if second in pins then 2 else 1, true, old(Seen(second)))]
                && if second in pins then Is(old(bc.buf)[y], second)
                                          && old(bc.buf)[y].valid else old(bc.buf)[y].refcnt == 0
      ensures res.Some? ==> forall c :: 0 <= c < |bc.disk| ==> Seen(c) == old(Seen(c))
    {
      hide Ring;
      hide Latest;
      hide Coherent;
      hide LeastRecent;
      hide Without;
      ghost var b0 := bc.buf;
      BufferForLog(bc.buf, pins, first);
      var x := bc.Bread(ROOTDEV, first);
      if x.None? {
        return None;
      }
      assert b0[x.value].refcnt == 0;
      if second in pins {
        assert CachedValid(b0, second);
        assert Is(bc.buf[Place(b0, second)], second);
      } else {
        SomeUnused(bc.buf, [first]);
      }
      var y := bc.Bread(ROOTDEV, second);
      if second in pins {
        OnePlace(b0, second, Place(b0, second), y.value);
      }
      res := Some((x.value, y.value));
    }

    /** One turn of write_log's loop. A false result is bread's panic. */
    method LogOne(tail: nat) returns (ok: bool)
      requires Valid() && tail < |lh| && Quiet(bc.buf, lh)
      modifies bc
      ensures ok <==> |lh| < NBUF
      ensures !ok ==> bc.disk == old(bc.disk) && bc.trace == old(bc.trace)
      ensures ok ==> bc.Valid() && Quiet(bc.buf, lh)
      ensures ok ==> bc.disk == old(bc.disk)[lay.start + 1 + tail := old(Seen(lh[tail]))]
      ensures ok ==> bc.trace == old(bc.trace) + [bc.disk]
      ensures ok ==> forall c :: 0 <= c < lay.size && lay.Home(c) ==> Seen(c) == old(Seen(c))
    {
      hide Ring;
      hide Coherent;
      hide Unique;
      hide Latest;
      hide HeaderOf;
      hide Word;
      ghost var b0 := bc.buf;
      var at := lay.start + tail + 1;
      var two := ReadTwo(at, lh[tail], lh);
      if two.None? {
        return false;
      }
      var (to, from) := two.value;
      LatestIs(b0, bc.disk, lh[tail], from);
      bc.Fill(to, bc.buf[from].data);
      PutAndRelease(to, from, false);
      assert bc.buf == b0[to := bc.buf[to]];
      QuietSwap(b0, lh, to, bc.buf[to]);
      ok := true;
    }

    /** write_log: copy every logged block from the cache to the log. Home
        blocks and header stay as they were after every single write. */
    method WriteLog() returns (ok: bool)
      requires Valid() && Quiet(bc.buf, lh) && lh != []
      modifies bc
      ensures ok <==> |lh| < NBUF
      ensures !ok ==> bc.disk == old(bc.disk) && bc.trace == old(bc.trace)
      ensures ok ==> bc.Valid() && Quiet(bc.buf, lh) && AgreeHome(lay, bc.disk, old(bc.disk))
      ensures ok ==> forall j :: 0 <= j < |lh| ==> lay.Slot(bc.disk, j) == old(Seen(lh[j]))
      ensures ok ==> |bc.trace| == old(|bc.trace|) + |lh| && old(bc.trace) <= bc.trace
      ensures ok ==> forall k :: old(|bc.trace|) <= k < |bc.trace| ==> AgreeHome(lay, bc.trace[k], old(bc.disk))
    {
      hide Quiet;
      hide Ring;
      hide Coherent;
      hide Unique;
      hide Latest;
      hide HeaderOf;
      hide Word;
      var tail := 0;
      while tail < |lh|
        invariant 0 <= tail <= |lh| && (tail > 0 ==> |lh| < NBUF)
        invariant bc.Valid() && Quiet(bc.buf, lh) && AgreeHome(lay, bc.disk, old(bc.disk))
        invariant tail == 0 ==> bc.disk == old(bc.disk) && bc.trace == old(bc.trace)
        invariant forall j :: 0 <= j < tail ==> lay.Slot(bc.disk, j) == old(Seen(lh[j]))
        invariant forall c :: 0 <= c < lay.size && lay.Home(c) ==> Seen(c) == old(Seen(c))
        invariant |bc.trace| == old(|bc.trace|) + tail && old(bc.trace) <= bc.trace
        invariant forall k :: old(|bc.trace|) <= k < |bc.trace| ==> AgreeHome(lay, bc.trace[k], old(bc.disk))
      {
        ok := LogOne(tail);
        if !ok {
          return;
        }
        tail := tail + 1;
      }
      ok := true;
    }

    /** write_head: store the in-memory header on disk. */
    method WriteHead(ghost pins: seq<nat>) returns (ok: bool)
      requires bc.Valid() && lay.Fits(bc.disk) && lay.HeaderOk(lh) && lay.HeaderOk(pins)
      requires Quiet(bc.buf, pins)
      modifies bc
      ensures ok <==> |pins| < NBUF
      ensures ok ==> bc.Valid() && Quiet(bc.buf, pins)
      ensures ok ==> bc.disk == old(bc.disk)[lay.start := FillHeader(old(Seen(lay.start)), lh)]
      ensures ok ==> bc.trace == old(bc.trace) + [bc.disk]
    {
      hide Ring;
      hide Coherent;
      hide Unique;
      hide Latest;
      hide HeaderOf;
      hide Word;
      hide SetWord;
      ghost var b0 := bc.buf;
      assert lay.start !in pins;
      BufferForLog(bc.buf, pins, lay.start);
      var got := bc.Bread(ROOTDEV, lay.start);
      if got.None? {
        return false;
      }
      var b := got.value;
      var head := bc.buf[b].data;
      head := SetWord(head, 0, |lh|);
      var i := 0;
      while i < |lh|
        invariant 0 <= i <= |lh|
        invariant head == FillEntries(bc.buf[b].data, lh, i)
      {
        head := SetWord(head, i + 1, lh[i]);
        i := i + 1;
      }
      bc.Fill(b, head);
      ok := bc.Bwrite(b);
      ok := bc.Brelse(b);
      assert bc.buf == b0[b := bc.buf[b]];
      QuietSwap(b0, pins, b, bc.buf[b]);
    }

    /** What the log keeps pinned while installing entry `tail`. */
    ghost function PinsAt(recovering: bool, tail: nat): (r: seq<nat>)
      reads this
      requires tail <= |lh|
    {
      if recovering then [] else lh[tail..]
    }

    /** One turn of install_trans's loop. */
    method InstallOne(recovering: bool, tail: nat) returns (ok: bool)
      requires bc.Valid() && lay.Fits(bc.disk) && lay.HeaderOk(lh) && tail < |lh|
      requires Quiet(bc.buf, PinsAt(recovering, tail))
      modifies bc
      ensures ok <==> recovering || |lh| - tail < NBUF
      ensures ok ==> bc.Valid() && Quiet(bc.buf, PinsAt(recovering, tail + 1))
      ensures ok ==> bc.disk == old(bc.disk)[lh[tail] := old(bc.disk)[lay.start + 1 + tail]]
      ensures ok ==> bc.trace == old(bc.trace) + [bc.disk]
    {
      hide Ring;
      hide Latest;
      hide HeaderOf;
      hide Word;
      hide Unique;
      hide Coherent;
      ghost var b0 := bc.buf;
      ghost var pins, rest := PinsAt(recovering, tail), PinsAt(recovering, tail + 1);
      var at := lay.start + tail + 1;
      assert !recovering ==> pins == [lh[tail]] + rest;
      assert at !in pins && lh[tail] !in rest;
      CleanOutside(bc.buf, bc.disk, pins, at);
      var two := ReadTwo(at, lh[tail], pins);
      if two.None? {
        return false;
      }
      var (lbuf, dbuf) := two.value;
      bc.Fill(dbuf, bc.buf[lbuf].data);
      PutAndRelease(dbuf, lbuf, !recovering);
      assert bc.buf == b0[lbuf := bc.buf[lbuf]][dbuf := bc.buf[dbuf]];
      QuietUnpin(b0, pins, rest, lbuf, bc.buf[lbuf], dbuf, bc.buf[dbuf]);
      ok := true;
    }

    /** install_trans: the disk goes through exactly the partial installs. */
    method InstallTrans(recovering: bool) returns (ok: bool)
      requires bc.Valid() && lay.Fits(bc.disk) && lay.HeaderOk(lh)
      requires Quiet(bc.buf, PinsAt(recovering, 0)) && (recovering || |lh| < NBUF)
      modifies bc
      ensures ok && bc.Valid() && Quiet(bc.buf, [])
      ensures bc.disk == Install(lay, old(bc.disk), lh, |lh|)
      ensures |bc.trace| == old(|bc.trace|) + |lh| && old(bc.trace) <= bc.trace
      ensures forall k :: old(|bc.trace|) <= k < |bc.trace| ==>
                bc.trace[k] == Install(lay, old(bc.disk), lh, k - old(|bc.trace|) + 1)
    {
      hide Quiet;
      hide Ring;
      hide Latest;
      hide Coherent;
      hide Unique;
      hide HeaderOf;
      hide Word;
      hide Install;
      var tail := 0;
      InstallStep(lay, bc.disk, lh, 0);
      while tail < |lh|
        invariant 0 <= tail <= |lh|
        invariant bc.Valid() && Quiet(bc.buf, PinsAt(recovering, tail))
        invariant bc.disk == Install(lay, old(bc.disk), lh, tail)
        invariant |bc.trace| == old(|bc.trace|) + tail && old(bc.trace) <= bc.trace
        invariant forall k :: old(|bc.trace|) <= k < |bc.trace| ==>
                    bc.trace[k] == Install(lay, old(bc.disk), lh, k - old(|bc.trace|) + 1)
      {
        InstallAt(lay, old(bc.disk), lh, tail, lay.start + 1 + tail);
        InstallStep(lay, old(bc.disk), lh, tail);
        ok := InstallOne(recovering, tail);
        tail := tail + 1;
      }
      assert PinsAt(recovering, |lh|) == [];
      ok := true;
    }

    /** read_head. */
    method ReadHead() returns (ok: bool)
      requires bc.Valid() && lay.DiskOk(bc.disk) && Quiet(bc.buf, [])
      modifies this`lh, bc`buf, bc`next, bc`prev, bc`order
      ensures ok && bc.Valid() && Quiet(bc.buf, []) && lh == HeaderOf(bc.disk[lay.start])
    {
      hide Ring;
      hide Latest;
      hide Word;
      ghost var b0 := bc.buf;
      CleanOutside(bc.buf, bc.disk, [], lay.start);
      SomeUnused(bc.buf, []);
      var got := bc.Bread(ROOTDEV, lay.start);
      var b := got.value;
      var n := Word(bc.buf[b].data, 0);
      var h := [];
      while |h| < n
        invariant |h| <= n
        invariant forall i :: 0 <= i < |h| ==> h[i] == Word(bc.buf[b].data, i + 1)
      {
        h := h + [Word(bc.buf[b].data, |h| + 1)];
      }
      lh := h;
      ok := bc.Brelse(b);
      assert bc.buf == b0[b := bc.buf[b]];
      QuietSwap(b0, [], b, bc.buf[b]);
    }

    /** The contents of every block as readers see them. */
    ghost function SeenAll(): (r: Disk)
      reads bc
    {
      seq(|bc.disk|, b requires 0 <= b < |bc.disk| reads bc => Latest(bc.buf, bc.disk, b))
    }

    /** commit(), with the log's blocks pinned and nothing else in the cache in
        use. It panics exactly when the transaction fills the whole cache, and
        then nothing has been written. Otherwise, whichever write the power
        fails after, recovery restores the contents from before the commit up
        to the header write and the contents readers saw from then on. */
    method Commit() returns (ok: bool)
      requires Valid() && Quiet(bc.buf, lh) && HeaderOf(bc.disk[lay.start]) == []
      modifies this`lh, bc
      ensures ok <==> |old(lh)| < NBUF
      ensures !ok ==> bc.disk == old(bc.disk) && bc.trace == old(bc.trace)
      ensures ok ==> Valid() && lh == [] && Quiet(bc.buf, []) && HeaderOf(bc.disk[lay.start]) == []
      ensures ok ==> lay.SameHome(bc.disk, old(SeenAll()))
      ensures ok ==> old(bc.trace) <= bc.trace
      ensures ok ==> forall k :: old(|bc.trace|) <= k < |bc.trace| ==>
                RecoversTo(lay, bc.trace[k], if k < old(|bc.trace| + |lh|) then old(bc.disk) else old(SeenAll()))
    {
      hide Ring;
      hide Latest;
      hide Quiet;
      hide Coherent;
      hide Unique;
      hide HeaderOf;
      hide Word;
      hide RecoversTo;
      hide Install;
      hide FillHeader;
      ghost var d0, want, h, t0 := bc.disk, SeenAll(), lh, |bc.trace|;
      forall b | 0 <= b < lay.size && lay.Home(b) && b !in h
        ensures d0[b] == want[b]
      {
        CleanOutside(bc.buf, bc.disk, lh, b);
      }
      ok := true;
      if |lh| > 0 {
        ok := WriteLog();
        if !ok {
          return;
        }
        ghost var d1 := bc.disk;
        forall k | t0 <= k < |bc.trace|
          ensures RecoversTo(lay, bc.trace[k], d0)
        {
          AgreeHomeRecovers(lay, d0, bc.trace[k]);
        }
        ghost var v := Seen(lay.start);
        ok := WriteHead(lh);
        ghost var d2 := bc.disk;
        HeaderCommits(lay, d1, h, v, want);
        ok := InstallTrans(false);
        ghost var d3 := bc.disk;
        lh := [];
        ghost var u := Seen(lay.start);
        ok := WriteHead([]);
        InstallThenErase(lay, d2, want, u);
      }
    }

    /** recover_from_log at boot: home blocks end up as Recovered says, and a
        further power failure after any of its writes changes nothing of that. */
    method RecoverFromLog() returns (ok: bool)
      requires Valid() && Quiet(bc.buf, [])
      modifies this`lh, bc
      ensures ok && Valid() && lh == [] && Quiet(bc.buf, []) && HeaderOf(bc.disk[lay.start]) == []
      ensures lay.SameHome(bc.disk, Recovered(lay, old(bc.disk)))
      ensures old(bc.trace) <= bc.trace
      ensures forall k :: old(|bc.trace|) <= k < |bc.trace| ==>
                RecoversTo(lay, bc.trace[k], Recovered(lay, old(bc.disk)))
    {
      hide Ring;
      hide Latest;
      hide Word;
      hide HeaderOf;
      hide Recovered;
      hide Install;
      hide FillHeader;
      ghost var d0 := bc.disk;
      ok := ReadHead();
      ok := InstallTrans(true);
      lh := [];
      ghost var u := Seen(lay.start);
      ok := WriteHead([]);
      InstallThenErase(lay, d0, Recovered(lay, d0), u);
    }

    /** log_write on a buffer the caller holds: a true result is one of its two
        panics. The full-log test comes before the search, so a repeated write
        to a full log panics although absorbing it would take no space. */
    method LogWrite(b: Slot) returns (panic: bool)
      requires Valid() && b < NBUF && bc.buf[b].dev == ROOTDEV && lay.Home(bc.buf[b].blockno)
      modifies this`lh, bc`buf
      ensures panic <==> |old(lh)| >= LOGBLOCKS || outstanding < 1
      ensures panic ==> lh == old(lh) && bc.buf == old(bc.buf)
      ensures !panic ==> Valid() && lh == Absorb(old(lh), old(bc.buf)[b].blockno)
      ensures !panic ==> bc.buf == if old(bc.buf)[b].blockno in old(lh) then old(bc.buf)
                                   else old(bc.buf)[b := old(bc.buf)[b].(refcnt := old(bc.buf)[b].refcnt + 1)]
    {
      hide Ring;
      hide Latest;
      hide Word;
      hide HeaderOf;
      if |lh| >= LOGBLOCKS {
        return true;
      }
      if outstanding < 1 {
        return true;
      }
      var no := bc.buf[b].blockno;
      var i := 0;
      while i < |lh|
        invariant 0 <= i <= |lh|
        invariant forall j :: 0 <= j < i ==> lh[j] != no
      {
        if lh[i] == no {
          break;
        }
        i := i + 1;
      }
      if i == |lh| {
        bc.Bpin(b);
        lh := lh + [no];
      } else {
        lh := lh[i := no];
      }
      panic := false;
    }

    /** begin_op: admitted, or it has to wait. */
    method BeginOp() returns (admitted: bool)
      modifies this`outstanding
      ensures admitted <==> !committing && |lh| + (old(outstanding) + 1) * MAXOPBLOCKS <= LOGBLOCKS
      ensures outstanding == old(outstanding) + if admitted then 1 else 0
    {
      if committing {
        admitted := false;
      } else if |lh| + (outstanding + 1) * MAXOPBLOCKS > LOGBLOCKS {
        admitted := false;
      } else {
        outstanding := outstanding + 1;
        admitted := true;
      }
    }

    /** end_op: the last one out commits. A false result is a panic: end_op's own, or
        commit's for want of a buffer. */
    method EndOp() returns (ok: bool)
      requires Valid() && Quiet(bc.buf, lh) && HeaderOf(bc.disk[lay.start]) == []
      modifies this, bc
      ensures ok <==> !old(committing) && (old(outstanding) == 1 ==> |old(lh)| < NBUF)
      ensures outstanding == old(outstanding) - 1
      ensures ok ==> Valid() && Quiet(bc.buf, lh) && HeaderOf(bc.disk[lay.start]) == [] && !committing
      ensures ok && outstanding != 0 ==> lh == old(lh) && bc.disk == old(bc.disk) && bc.buf == old(bc.buf)
      ensures ok && outstanding == 0 ==> lh == [] && lay.SameHome(bc.disk, old(SeenAll()))
    {
      outstanding := outstanding - 1;
      if committing {
        return false;
      }
      if outstanding == 0 {
        committing := true;
        ok := Commit();
        committing := false;
      } else {
        ok := true;
      }
    }

    /** What an operation does to write a block it has not written yet: bread,
        memmove, log_write, brelse. */
    method WriteBlock(b: nat, data: Block)
      requires Valid() && Quiet(bc.buf, lh) && |lh| < LOGBLOCKS && outstanding >= 1 && lay.Home(b) && b !in lh
      modifies this`lh, bc
      ensures Valid() && Quiet(bc.buf, lh) && lh == old(lh) + [b] && bc.disk == old(bc.disk)
    {
      hide Ring;
      hide Latest;
      hide Coherent;
      hide Word;
      hide HeaderOf;
      hide LeastRecent;
      hide Without;
      hide Unique;
      ghost var b0 := bc.buf;
      BufferForLog(b0, lh, b);
      var res := bc.Bread(ROOTDEV, b);
      var i := res.value;
      bc.Fill(i, data);
      var panic := LogWrite(i);
      var ok := bc.Brelse(i);
      assert bc.buf == b0[i := Buf(ROOTDEV, b, true, 1, false, data)];
      QuietMore(b0, old(lh), i, b, data);
    }
  }

  lemma QuietMore(buf: seq<Buf>, pins: seq<nat>, i: nat, b: nat, data: Block)
    requires Quiet(buf, pins) && Unique(buf) && i < |buf| && b !in pins
             && (Is(buf[i], b) || (!Cached(buf, b) && buf[i].refcnt == 0))
    ensures Quiet(buf[i := Buf(ROOTDEV, b, true, 1, false, data)], pins + [b])
  {
    var g := buf[i := Buf(ROOTDEV, b, true, 1, false, data)];
    assert Is(g[i], b);
    forall c | c in pins
      ensures CachedValid(g, c)
    {
      var j :| 0 <= j < |buf| && Is(buf[j], c) && buf[j].valid;
      assert Is(g[j], c);
    }
  }

  // ---------- a full log ----------

  /** Three operations begin and write ten blocks each. */
  method FullLog() returns (log: Log)
    ensures fresh(log) && fresh(log.bc) && log.Valid() && Quiet(log.bc.buf, log.lh)
    ensures |log.lh| == LOGBLOCKS && log.outstanding == 3 && !log.committing
    ensures HeaderOf(log.bc.disk[log.lay.start]) == []
  {
    hide Ring;
    hide Latest;
    hide Word;
    hide Coherent;
    var lay := Layout(2, 100);
    WordOfZero(0);
    var bc := new Cache(seq(100, _ => ZeroBlock));
    log := new Log(bc, lay);
    assert HeaderOf(bc.disk[2]) == [];
    var a := log.BeginOp();
    var b := log.BeginOp();
    var c := log.BeginOp();
    while |log.lh| < LOGBLOCKS
      invariant log.Valid() && Quiet(log.bc.buf, log.lh) && log.outstanding == 3 && log.lay == lay && !log.committing
      invariant forall k :: 0 <= k < |log.lh| ==> log.lh[k] == 40 + k
      invariant log.bc == bc && bc.disk == seq(100, _ => ZeroBlock)
      decreases LOGBLOCKS - |log.lh|
    {
      log.WriteBlock(40 + |log.lh|, ZeroBlock);
    }
  }

  /** Writing one of the logged blocks again panics. */
  method FullLogRepeat() returns (logged: bool, panic: bool)
    ensures logged && panic
  {
    hide Ring;
    hide Latest;
    hide Word;
    hide HeaderOf;
    hide Coherent;
    hide Unique;
    var log := FullLog();
    var again := log.lh[0];
    assert CachedValid(log.bc.buf, again);
    var b := log.bc.Bread(ROOTDEV, again);
    logged := log.bc.buf[b.value].blockno in log.lh;
    panic := log.LogWrite(b.value);
  }

  /** The commit that the last of three end_ops starts panics in bread. */
  method FullLogCommit() returns (ok: bool)
    ensures !ok
  {
    var log := FullLog();
    ok := log.EndOp();
    ok := log.EndOp();
    ok := log.EndOp();
  }
}
