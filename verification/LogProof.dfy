/** The machine of LogMachine keeps its invariant and refines TxStore. */
module LogProof {
  import opened Base
  import opened Blocks
  import opened LogFormat
  import opened TxStore
  import opened LogMachine

  /** Logged blocks whose cache buffer is still pinned. */
  ghost function Pins(s: Sys): (r: seq<nat>) {
    if s.recovering || s.unpinned > |s.lh| then [] else s.lh[s.unpinned..]
  }

  /** refcnt is exactly the bget callers plus the pin; a buffer that is neither
      pinned nor dirty mirrors the disk, so evicting it loses nothing. */
  ghost predicate BufInv(s: Sys, b: nat)
    requires b in s.cache && b < |s.disk|
  {
    var f := s.cache[b];
    && f.refcnt == |f.users| + (if b in Pins(s) then 1 else 0)
    && (f.holder.Some? ==> f.holder.value in f.users)
    && (f.valid && b !in Pins(s) && b !in s.dirty ==> f.data == s.disk[b])
  }

  ghost predicate CacheInv(lay: Layout, s: Sys) {
    && lay.Fits(s.disk)
    && |s.cache| <= NBUF
    && (forall b :: b in s.cache ==> b < lay.size && BufInv(s, b))
    && (forall b :: b in Pins(s) ==> b in s.cache && s.cache[b].valid)
  }

  ghost predicate DirtyInv(lay: Layout, s: Sys) {
    forall b :: b in s.dirty ==>
      && b in s.cache && s.cache[b].valid && s.cache[b].holder.Some?
      && var t := s.cache[b].holder.value;
         || (t in s.ops && lay.Home(b))
         || (t in s.commits && Target(lay, s, s.commits[t]) == Some(b))
  }

  /** Log space still reserved for the operations under way. */
  ghost function Reserve(ops: map<Tid, set<nat>>): (r: int)
    decreases |ops|
  {
    if |ops| == 0 then 0
    else
      var t :| t in ops;
      assert (ops - {t}).Keys == ops.Keys - {t};
      MAXOPBLOCKS - |ops[t]| + Reserve(ops - {t})
  }

  ghost predicate OpInv(s: Sys) {
    && s.outstanding == |s.ops|
    && (forall t :: t in s.ops ==> |s.ops[t]| <= MAXOPBLOCKS && forall b :: b in s.ops[t] ==> b in s.lh)
    && |s.lh| + Reserve(s.ops) <= LOGBLOCKS
    && (forall t :: t in s.ops ==> t !in s.commits)
    && (s.committing ==> s.ops == map[])
    && (s.recovering ==> s.ops == map[])
    && (s.ops == map[] && s.commits == map[] ==> s.lh == [])
  }

  ghost predicate CommitInv(lay: Layout, s: Sys) {
    && (forall t, u :: t in s.commits && u in s.commits ==> t == u)
    && (s.committing || s.recovering <==> s.commits != map[])
    && !(s.committing && s.recovering)
    && lay.DiskOk(s.disk)
    && lay.HeaderOk(s.lh)
    && s.unpinned <= |s.lh|
    && (s.commits == map[] ==> HeaderOf(s.disk[lay.start]) == [] && s.unpinned == 0)
    && (forall t :: t in s.commits ==> PcInv(lay, s, t))
  }

  ghost predicate Filled(lay: Layout, s: Sys, t: Tid, b: nat) {
    s.dirty == {b} && Holds(s, t, b)
  }

  /** Log blocks [from, to) hold what the cache has for their home blocks. */
  ghost predicate Logged(lay: Layout, s: Sys, from: nat, to: nat)
    requires lay.Fits(s.disk) && lay.HeaderOk(s.lh)
  {
    forall j :: from <= j < to <= |s.lh| ==> s.lh[j] in s.cache && lay.Slot(s.disk, j) == s.cache[s.lh[j]].data
  }

  ghost predicate PcInv(lay: Layout, s: Sys, t: Tid)
    requires t in s.commits && lay.DiskOk(s.disk) && lay.HeaderOk(s.lh)
  {
    var head := HeaderOf(s.disk[lay.start]);
    match s.commits[t]
    case LogCopy(i) =>
      !s.recovering && 0 < |s.lh| && i <= |s.lh| && s.unpinned == 0 && head == [] && s.dirty == {}
        && Logged(lay, s, 0, i)
    case LogPut(i) =>
      && !s.recovering && i < |s.lh| && s.unpinned == 0 && head == [] && Logged(lay, s, 0, i)
      && Filled(lay, s, t, lay.start + 1 + i)
      && s.lh[i] in s.cache && s.cache[lay.start + 1 + i].data == s.cache[s.lh[i]].data
    case HeadPut =>
      && !s.recovering && 0 < |s.lh| && s.unpinned == 0 && head == [] && Logged(lay, s, 0, |s.lh|)
      && Filled(lay, s, t, lay.start)
      && Word(s.cache[lay.start].data, 0) <= LOGBLOCKS && HeaderOf(s.cache[lay.start].data) == s.lh
    case HomeCopy(i) =>
      && i <= |s.lh| && head == s.lh && s.dirty == {} && Installed(lay, s.disk, s.lh, i)
      && if s.recovering then s.unpinned == 0 else s.unpinned == i && Logged(lay, s, i, |s.lh|)
    case HomePut(i) =>
      && i < |s.lh| && head == s.lh && Installed(lay, s.disk, s.lh, i)
      && Filled(lay, s, t, s.lh[i]) && s.cache[s.lh[i]].data == lay.Slot(s.disk, i)
      && if s.recovering then s.unpinned == 0 else s.unpinned == i && Logged(lay, s, i, |s.lh|)
    case ClearFill => s.lh == [] && s.dirty == {} && Installed(lay, s.disk, head, |head|)
    case ClearPut =>
      && s.lh == [] && Installed(lay, s.disk, head, |head|)
      && Filled(lay, s, t, lay.start)
      && Word(s.cache[lay.start].data, 0) == 0
    case Finished => s.lh == [] && s.dirty == {} && head == []
    case ReadHead => s.recovering && s.lh == [] && s.dirty == {}
  }

  ghost predicate Inv(lay: Layout, s: Sys) {
    CacheInv(lay, s) && DirtyInv(lay, s) && OpInv(s) && CommitInv(lay, s) && !s.panicked
  }

  ghost function Homes(lay: Layout): (r: set<nat>) {
    set b | 0 <= b < lay.size && lay.Home(b)
  }

  /** What bread would return for a home block now. */
  ghost function View(lay: Layout, s: Sys, b: nat): (r: Block)
    requires lay.DiskOk(s.disk) && b < lay.size
  {
    if s.recovering then Recovered(lay, s.disk)[b]
    else if b in s.cache && s.cache[b].valid then s.cache[b].data
    else s.disk[b]
  }

  ghost function Alpha(lay: Layout, s: Sys): (r: Store)
    requires lay.DiskOk(s.disk)
  {
    Store(map b | b in Homes(lay) :: View(lay, s, b),
          map b | b in Homes(lay) :: Recovered(lay, s.disk)[b],
          s.ops.Keys)
  }

  /** One step of the machine is one event of the specification. */
  ghost predicate Simulates(lay: Layout, s: Sys, r: Sys, e: Event) {
    && lay.DiskOk(s.disk) && Inv(lay, r)
    && Allowed(Alpha(lay, s), e)
    && Alpha(lay, r) == After(Alpha(lay, s), e)
  }

  // ---------- steps that only touch the cache ----------

  /** Pinned and dirty buffers survive with their contents, dirty ones with
      their owner too. */
  ghost predicate KeepsBuffers(s: Sys, r: Sys) {
    && r == s.(cache := r.cache)
    && (forall b :: b in s.cache && s.cache[b].valid && (b in Pins(s) || b in s.dirty) ==>
          b in r.cache && r.cache[b].valid && r.cache[b].data == s.cache[b].data)
    && (forall b :: b in s.dirty && b in s.cache ==> b in r.cache && r.cache[b].holder == s.cache[b].holder)
  }

  lemma PinnedKept(s: Sys, r: Sys, j: nat)
    requires KeepsBuffers(s, r) && !s.recovering && s.unpinned <= j < |s.lh|
    requires forall b :: b in Pins(s) ==> b in s.cache && s.cache[b].valid
    ensures s.lh[j] in s.cache && s.lh[j] in r.cache && r.cache[s.lh[j]].data == s.cache[s.lh[j]].data
  {
    assert Pins(s)[j - s.unpinned] == s.lh[j];
    assert s.lh[j] in Pins(s);
  }

  lemma PcFrame(lay: Layout, s: Sys, r: Sys, t: Tid)
    requires CacheInv(lay, s) && lay.DiskOk(s.disk) && lay.HeaderOk(s.lh) && s.unpinned <= |s.lh|
    requires KeepsBuffers(s, r)
    requires t in s.commits && PcInv(lay, s, t)
    ensures PcInv(lay, r, t)
  {
    hide BufInv;
    hide HeaderOf;
    hide Word;
    hide Pins;
    forall j | s.unpinned <= j < |s.lh| && !s.recovering
      ensures s.lh[j] in s.cache && s.lh[j] in r.cache && r.cache[s.lh[j]].data == s.cache[s.lh[j]].data
    {
      PinnedKept(s, r, j);
    }
  }

  lemma DirtyFrame(lay: Layout, s: Sys, r: Sys)
    requires DirtyInv(lay, s) && KeepsBuffers(s, r)
    ensures DirtyInv(lay, r)
  {
    forall t | t in s.commits
      ensures Target(lay, r, r.commits[t]) == Target(lay, s, s.commits[t])
    {
    }
  }

  lemma CommitFrame(lay: Layout, s: Sys, r: Sys)
    requires CommitInv(lay, s) && CacheInv(lay, s) && KeepsBuffers(s, r)
    ensures CommitInv(lay, r)
  {
    hide BufInv;
    hide PcInv;
    hide HeaderOf;
    hide Word;
    forall t | t in s.commits
      ensures PcInv(lay, r, t)
    {
      PcFrame(lay, s, r, t);
    }
  }

  lemma ViewFrame(lay: Layout, s: Sys, r: Sys)
    requires lay.DiskOk(s.disk) && r == s.(cache := r.cache)
    requires forall b :: 0 <= b < lay.size && lay.Home(b) ==> View(lay, r, b) == View(lay, s, b)
    ensures Alpha(lay, r) == Alpha(lay, s)
  {
    hide View;
    hide Recovered;
    hide HeaderOf;
    hide Word;
  }

  lemma CacheFrame(lay: Layout, s: Sys, r: Sys)
    requires Inv(lay, s) && CacheInv(lay, r) && KeepsBuffers(s, r)
    requires forall b :: 0 <= b < lay.size && lay.Home(b) ==> View(lay, r, b) == View(lay, s, b)
    ensures Simulates(lay, s, r, Stutter)
  {
    hide CacheInv;
    hide CommitInv;
    hide DirtyInv;
    hide OpInv;
    hide View;
    hide Alpha;
    Parts(lay, s);
    DirtyFrame(lay, s, r);
    CommitFrame(lay, s, r);
    OpFrame(s, r);
    ViewFrame(lay, s, r);
    Assemble(lay, s, r, Stutter);
  }

  lemma OpFrame(s: Sys, r: Sys)
    requires OpInv(s) && r == s.(cache := r.cache)
    ensures OpInv(r)
  {
    hide Reserve;
  }

  lemma CacheUpdate(lay: Layout, s: Sys, b: nat, f: Buf)
    requires CacheInv(lay, s) && b in s.cache
    requires BufInv(s.(cache := s.cache[b := f]), b)
    requires b in Pins(s) ==> f.valid
    ensures CacheInv(lay, s.(cache := s.cache[b := f]))
  {
    var r := s.(cache := s.cache[b := f]);
    assert Pins(r) == Pins(s);
    assert r.cache.Keys == s.cache.Keys;
    assert |r.cache| == |r.cache.Keys| && |s.cache| == |s.cache.Keys|;
    forall c | c in r.cache
      ensures c < lay.size && BufInv(r, c)
    {
      assert c != b ==> BufInv(s, c);
    }
  }

  /** One buffer changes its counts, its lock or fills from disk. */
  ghost predicate Benign(s: Sys, b: nat, f: Buf) {
    && b in s.cache && b < |s.disk|
    && BufInv(s.(cache := s.cache[b := f]), b)
    && (s.cache[b].valid ==> f.valid && f.data == s.cache[b].data)
    && (!s.cache[b].valid && f.valid ==> f.data == s.disk[b])
    && (b in s.dirty ==> f.holder == s.cache[b].holder)
  }

  lemma BenignViews(lay: Layout, s: Sys, b: nat, f: Buf)
    requires lay.DiskOk(s.disk) && Benign(s, b, f)
    ensures KeepsBuffers(s, s.(cache := s.cache[b := f]))
    ensures forall c :: 0 <= c < lay.size && lay.Home(c) ==>
              View(lay, s.(cache := s.cache[b := f]), c) == View(lay, s, c)
  {
    hide Recovered;
    hide HeaderOf;
    hide Word;
    hide BufInv;
  }

  lemma SwapBuffer(lay: Layout, s: Sys, b: nat, f: Buf)
    requires Inv(lay, s) && Benign(s, b, f)
    ensures Simulates(lay, s, s.(cache := s.cache[b := f]), Stutter)
  {
    assert lay.DiskOk(s.disk) && CacheInv(lay, s);
    assert b in Pins(s) ==> f.valid;
    assert b in s.cache && BufInv(s.(cache := s.cache[b := f]), b);
    hide *;
    CacheUpdate(lay, s, b, f);
    BenignViews(lay, s, b, f);
    CacheFrame(lay, s, s.(cache := s.cache[b := f]));
  }

  lemma OneBufferBenign(lay: Layout, s: Sys, st: Step)
    requires CacheInv(lay, s) && DirtyInv(lay, s) && Enabled(lay, s, st)
    requires st.Lock? || st.Fill? || st.Unlock? || st.Unref? || (st.Bget? && st.b in s.cache)
    ensures var r := Apply(lay, s, st);
            st.b in r.cache && r == s.(cache := s.cache[st.b := r.cache[st.b]]) && Benign(s, st.b, r.cache[st.b])
  {
    assert BufInv(s, st.b);
    var r := Apply(lay, s, st);
    assert Pins(r) == Pins(s);
  }

  lemma OneBufferKeeps(lay: Layout, s: Sys, st: Step)
    requires Inv(lay, s) && Enabled(lay, s, st)
    requires st.Lock? || st.Fill? || st.Unlock? || st.Unref? || (st.Bget? && st.b in s.cache)
    ensures Simulates(lay, s, Apply(lay, s, st), Stutter)
  {
    hide *;
    Parts(lay, s);
    OneBufferBenign(lay, s, st);
    SwapBuffer(lay, s, st.b, Apply(lay, s, st).cache[st.b]);
  }

  /** A buffer with refcnt 0 is neither pinned nor dirty, hence holds nothing
      the disk does not. */
  lemma VictimClean(lay: Layout, s: Sys, v: nat)
    requires CacheInv(lay, s) && DirtyInv(lay, s) && v in s.cache && s.cache[v].refcnt == 0
    ensures v !in Pins(s) && v !in s.dirty
    ensures s.cache[v].valid ==> s.cache[v].data == s.disk[v]
  {
    assert BufInv(s, v);
    assert s.cache[v].users == multiset{};
  }

  lemma RecycledCount(s: Sys, t: Tid, b: nat, victim: Option<nat>, junk: Block)
    requires |s.cache| <= NBUF && b !in s.cache
    requires if victim.Some? then victim.value in s.cache else |s.cache| < NBUF
    ensures |Recycled(s, t, b, victim, junk).cache| <= NBUF
  {
    var keys := s.cache.Keys;
    var r := Recycled(s, t, b, victim, junk);
    assert |s.cache| == |keys| && |r.cache| == |r.cache.Keys|;
    if victim.Some? {
      assert r.cache.Keys == keys - {victim.value} + {b};
      assert |keys - {victim.value}| == |keys| - 1;
    } else {
      assert r.cache.Keys == keys + {b};
    }
  }

  lemma FreshBuffer(s: Sys, r: Sys, t: Tid, b: nat, junk: Block)
    requires b !in Pins(s) && Pins(r) == Pins(s) && b < |r.disk|
    requires b in r.cache && r.cache[b] == Buf(false, 1, junk, None, multiset{t})
    ensures BufInv(r, b)
  {
    hide Pins;
    assert |multiset{t}| == 1;
  }

  lemma RecycledCache(lay: Layout, s: Sys, t: Tid, b: nat, victim: Option<nat>, junk: Block)
    requires CacheInv(lay, s) && b !in s.cache && b < lay.size
    requires if victim.Some? then victim.value in s.cache && victim.value !in Pins(s) else |s.cache| < NBUF
    ensures CacheInv(lay, Recycled(s, t, b, victim, junk))
  {
    hide Pins;
    var r := Recycled(s, t, b, victim, junk);
    SamePins(s, r);
    RecycledCount(s, t, b, victim, junk);
    FreshBuffer(s, r, t, b, junk);
    forall c | c in r.cache && c != b
      ensures c < lay.size && BufInv(r, c)
    {
      assert BufInv(s, c);
    }
  }

  lemma SamePins(s: Sys, r: Sys)
    requires r.lh == s.lh && r.unpinned == s.unpinned && r.recovering == s.recovering
    ensures Pins(r) == Pins(s)
  {
  }

  lemma RecycledViews(lay: Layout, s: Sys, t: Tid, b: nat, victim: Option<nat>, junk: Block)
    requires lay.DiskOk(s.disk) && b !in s.cache && b !in s.dirty && b !in Pins(s)
    requires victim.Some? ==>
      && victim.value in s.cache && victim.value !in Pins(s) && victim.value !in s.dirty && victim.value < |s.disk|
      && (s.cache[victim.value].valid ==> s.cache[victim.value].data == s.disk[victim.value])
    ensures KeepsBuffers(s, Recycled(s, t, b, victim, junk))
    ensures forall c :: 0 <= c < lay.size && lay.Home(c) ==>
              View(lay, Recycled(s, t, b, victim, junk), c) == View(lay, s, c)
  {
    hide Recovered;
    hide HeaderOf;
    hide Word;
    hide Pins;
  }

  lemma RecycleKeeps(lay: Layout, s: Sys, st: Step)
    requires Inv(lay, s) && Enabled(lay, s, st)
    requires st.Bget? && st.b !in s.cache
    ensures Simulates(lay, s, Apply(lay, s, st), Stutter)
  {
    hide CommitInv;
    hide BufInv;
    hide Pins;
    hide Recycled;
    hide Simulates;
    hide OpInv;
    Parts(lay, s);
    if st.victim.Some? {
      VictimClean(lay, s, st.victim.value);
    }
    RecycledCache(lay, s, st.t, st.b, st.victim, st.junk);
    RecycledViews(lay, s, st.t, st.b, st.victim, st.junk);
    CacheFrame(lay, s, Recycled(s, st.t, st.b, st.victim, st.junk));
  }

  // ---------- operations ----------

  lemma {:induction false} ReserveSplit(ops: map<Tid, set<nat>>, t: Tid)
    requires t in ops
    ensures Reserve(ops) == MAXOPBLOCKS - |ops[t]| + Reserve(ops - {t})
    decreases |ops|
  {
    var u :| u in ops && Reserve(ops) == MAXOPBLOCKS - |ops[u]| + Reserve(ops - {u});
    if u != t {
      assert (ops - {u}).Keys == ops.Keys - {u} && (ops - {t}).Keys == ops.Keys - {t};
      ReserveSplit(ops - {u}, t);
      ReserveSplit(ops - {t}, u);
      assert ops - {u} - {t} == ops - {t} - {u};
    }
  }

  lemma {:induction false} ReserveBounds(ops: map<Tid, set<nat>>)
    requires forall t :: t in ops ==> |ops[t]| <= MAXOPBLOCKS
    ensures 0 <= Reserve(ops) <= MAXOPBLOCKS * |ops|
    decreases |ops|
  {
    if |ops| != 0 {
      var t :| t in ops;
      ReserveSplit(ops, t);
      assert (ops - {t}).Keys == ops.Keys - {t};
      ReserveBounds(ops - {t});
    }
  }

  lemma ReserveUpdate(ops: map<Tid, set<nat>>, t: Tid, w: set<nat>)
    ensures Reserve(ops[t := w]) == MAXOPBLOCKS - |w| + Reserve(ops - {t})
  {
    ReserveSplit(ops[t := w], t);
    assert ops[t := w] - {t} == ops - {t};
  }

  /** While an operation is under way nobody commits or recovers. */
  lemma NoCommitInOp(lay: Layout, s: Sys)
    requires OpInv(s) && CommitInv(lay, s) && s.ops != map[]
    ensures !s.committing && !s.recovering && s.commits == map[] && s.unpinned == 0 && Pins(s) == s.lh
    ensures lay.DiskOk(s.disk) && HeaderOf(s.disk[lay.start]) == [] && lay.HeaderOk(s.lh)
  {
    hide PcInv;
    hide Reserve;
  }

  lemma Parts(lay: Layout, s: Sys)
    requires Inv(lay, s)
    ensures CacheInv(lay, s) && DirtyInv(lay, s) && OpInv(s) && CommitInv(lay, s) && !s.panicked
    ensures lay.DiskOk(s.disk)
  {
    hide CacheInv;
    hide OpInv;
    hide PcInv;
    hide DirtyInv;
  }

  lemma Assemble(lay: Layout, s: Sys, r: Sys, e: Event)
    requires lay.DiskOk(s.disk) && CacheInv(lay, r) && DirtyInv(lay, r) && OpInv(r) && CommitInv(lay, r) && !r.panicked
    requires lay.DiskOk(r.disk) && Allowed(Alpha(lay, s), e) && Alpha(lay, r) == After(Alpha(lay, s), e)
    ensures Simulates(lay, s, r, e)
  {
    hide CacheInv;
    hide DirtyInv;
    hide OpInv;
    hide CommitInv;
    hide Alpha;
  }

  /** The cache part depends only on the disk, the cache, and what is dirty or
      pinned. */
  lemma SameCache(lay: Layout, s: Sys, r: Sys)
    requires CacheInv(lay, s)
    requires r.disk == s.disk && r.cache == s.cache && r.dirty == s.dirty && Pins(r) == Pins(s)
    ensures CacheInv(lay, r)
  {
    hide Pins;
    forall b | b in r.cache
      ensures BufInv(r, b)
    {
      assert BufInv(s, b);
    }
  }

  lemma SameViews(lay: Layout, s: Sys, r: Sys)
    requires lay.DiskOk(s.disk) && r.disk == s.disk && r.recovering == s.recovering
    requires r.cache.Keys == s.cache.Keys
    requires forall b :: b in s.cache ==> r.cache[b].valid == s.cache[b].valid && r.cache[b].data == s.cache[b].data
    ensures Alpha(lay, r) == Alpha(lay, s).(active := r.ops.Keys)
  {
    hide Recovered;
    hide HeaderOf;
    hide Word;
    assert forall b :: b in Homes(lay) ==> View(lay, r, b) == View(lay, s, b);
  }

  /** With no log thread about, the log part of the invariant only concerns
      the header on disk and in memory. */
  lemma IdleCommitInv(lay: Layout, s: Sys, r: Sys)
    requires CommitInv(lay, s) && s.commits == map[]
    requires r.disk == s.disk && lay.HeaderOk(r.lh) && r.unpinned == 0
    requires r.commits == map[] && !r.committing && !r.recovering
    ensures CommitInv(lay, r)
  {
    hide HeaderOf;
    hide Word;
    hide PcInv;
  }

  lemma OneMoreOp(ops: map<Tid, set<nat>>, t: Tid)
    requires t !in ops
    ensures |ops[t := {}]| == |ops| + 1
  {
    assert ops[t := {}].Keys == ops.Keys + {t};
    assert |ops[t := {}]| == |ops[t := {}].Keys| && |ops| == |ops.Keys|;
  }

  lemma TenTimes(n: nat)
    ensures (n + 1) * MAXOPBLOCKS == MAXOPBLOCKS * n + MAXOPBLOCKS
  {
  }

  lemma BegunOps(s: Sys, t: Tid)
    requires OpInv(s)
    requires t !in s.ops && t !in s.commits && !s.recovering && !s.committing
    requires |s.lh| + (s.outstanding + 1) * MAXOPBLOCKS <= LOGBLOCKS
    ensures OpInv(Begun(s, t))
  {
    hide Reserve;
    var r := Begun(s, t);
    ReserveUpdate(s.ops, t, {});
    assert s.ops - {t} == s.ops;
    ReserveBounds(s.ops);
    OneMoreOp(s.ops, t);
    TenTimes(|s.ops|);
  }

  lemma BeginOpKeeps(lay: Layout, s: Sys, t: Tid)
    requires Inv(lay, s) && Enabled(lay, s, BeginOp(t))
    ensures Simulates(lay, s, Apply(lay, s, BeginOp(t)), Begin(t))
  {
    hide CacheInv;
    hide OpInv;
    hide PcInv;
    hide Alpha;
    hide HeaderOf;
    hide Word;
    Parts(lay, s);
    var r := Begun(s, t);
    SameCache(lay, s, r);
    BegunOps(s, t);
    IdleCommitInv(lay, s, r);
    SameViews(lay, s, r);
    ActiveAre(lay, s);
    assert r.ops.Keys == s.ops.Keys + {t};
    Assemble(lay, s, r, Begin(t));
  }

  lemma ActiveAre(lay: Layout, s: Sys)
    requires lay.DiskOk(s.disk)
    ensures Alpha(lay, s).active == s.ops.Keys
    ensures Alpha(lay, s).current.Keys == Homes(lay)
  {
  }

  lemma ModifyViews(lay: Layout, s: Sys, b: nat, v: Block)
    requires lay.DiskOk(s.disk) && lay.Home(b) && b in s.cache && s.cache[b].valid && !s.recovering
    ensures b in Homes(lay)
    ensures Alpha(lay, Memmove(s, b, v)) == Alpha(lay, s).(current := Alpha(lay, s).current[b := v])
  {
    hide Recovered;
    hide HeaderOf;
    hide Word;
    var r := Memmove(s, b, v);
    assert forall c :: c in Homes(lay) && c != b ==> View(lay, r, c) == View(lay, s, c);
    assert b in Homes(lay);
    assert Alpha(lay, r).current == Alpha(lay, s).current[b := v];
  }

  /** Filling a buffer keeps the cache in order: the buffer becomes dirty. */
  lemma MemmoveCache(lay: Layout, s: Sys, b: nat, v: Block)
    requires CacheInv(lay, s) && b in s.cache
    ensures CacheInv(lay, Memmove(s, b, v))
  {
    var r := Memmove(s, b, v);
    assert Pins(r) == Pins(s);
    hide Pins;
    assert r.cache.Keys == s.cache.Keys;
    assert |r.cache| == |r.cache.Keys| && |s.cache| == |s.cache.Keys|;
    forall c | c in r.cache
      ensures c < lay.size && BufInv(r, c)
    {
      assert BufInv(s, c);
    }
  }

  lemma ModifyKeeps(lay: Layout, s: Sys, t: Tid, b: nat, v: Block)
    requires Inv(lay, s) && Enabled(lay, s, Modify(t, b, v))
    ensures Simulates(lay, s, Apply(lay, s, Modify(t, b, v)), Write(t, b, v))
  {
    hide CacheInv;
    hide Reserve;
    hide CommitInv;
    hide Alpha;
    hide Homes;
    Parts(lay, s);
    NoCommitInOp(lay, s);
    var r := Memmove(s, b, v);
    MemmoveCache(lay, s, b, v);
    IdleCommitInv(lay, s, r);
    ModifyViews(lay, s, b, v);
    ActiveAre(lay, s);
    Assemble(lay, s, r, Write(t, b, v));
  }

  lemma RecordedOps(s: Sys, t: Tid, b: nat)
    requires OpInv(s) && t in s.ops && b in s.cache
    requires |s.ops[t]| < MAXOPBLOCKS || (b in s.ops[t] && |s.lh| < LOGBLOCKS)
    ensures |s.lh| < LOGBLOCKS && s.outstanding >= 1
    ensures OpInv(Recorded(s, t, b))
  {
    hide Reserve;
    var r := Recorded(s, t, b);
    ReserveSplit(s.ops, t);
    ReserveUpdate(s.ops, t, s.ops[t] + {b});
    ReserveBounds(s.ops - {t});
    assert r.ops.Keys == s.ops.Keys;
    assert |r.ops| == |r.ops.Keys| && |s.ops| == |s.ops.Keys|;
    if b in s.ops[t] {
      assert s.ops[t] + {b} == s.ops[t];
    }
  }

  lemma RecordedCache(lay: Layout, s: Sys, t: Tid, b: nat)
    requires CacheInv(lay, s) && Holds(s, t, b) && t in s.ops && !s.recovering && s.unpinned == 0
    ensures CacheInv(lay, Recorded(s, t, b))
  {
    var r := Recorded(s, t, b);
    assert Pins(s) == s.lh && Pins(r) == r.lh;
    hide Pins;
    assert r.cache.Keys == s.cache.Keys;
    assert |r.cache| == |r.cache.Keys| && |s.cache| == |s.cache.Keys|;
    forall c | c in r.cache
      ensures c < lay.size && BufInv(r, c)
    {
      assert BufInv(s, c);
    }
  }

  lemma AbsorbOk(lay: Layout, h: seq<nat>, b: nat)
    requires lay.HeaderOk(h) && lay.Home(b) && |h| < LOGBLOCKS
    ensures lay.HeaderOk(Absorb(h, b))
  {
  }

  /** log_write never panics for a client within its budget, and it changes
      nothing a reader can see. */
  lemma LogWriteKeeps(lay: Layout, s: Sys, t: Tid, b: nat)
    requires Inv(lay, s) && Enabled(lay, s, LogWrite(t, b))
    ensures Simulates(lay, s, Apply(lay, s, LogWrite(t, b)), Stutter)
  {
    hide CacheInv;
    hide OpInv;
    hide CommitInv;
    hide Alpha;
    hide Absorb;
    Parts(lay, s);
    NoCommitInOp(lay, s);
    var r := Recorded(s, t, b);
    RecordedOps(s, t, b);
    RecordedCache(lay, s, t, b);
    AbsorbOk(lay, s.lh, b);
    IdleCommitInv(lay, s, r);
    assert r.ops.Keys == s.ops.Keys;
    SameViews(lay, s, r);
    ActiveAre(lay, s);
    Assemble(lay, s, r, Stutter);
  }

  lemma Outstanding(s: Sys)
    requires OpInv(s)
    ensures s.outstanding == |s.ops|
  {
    hide Reserve;
  }

  lemma EndedOps(s: Sys, t: Tid)
    requires OpInv(s) && t in s.ops && !s.committing && !s.recovering && s.commits == map[]
    ensures OpInv(Ended(s, t))
  {
    hide Reserve;
    var r := Ended(s, t);
    ReserveSplit(s.ops, t);
    assert r.ops.Keys == s.ops.Keys - {t};
    assert |r.ops| == |r.ops.Keys| && |s.ops| == |s.ops.Keys|;
    assert r.outstanding == 0 ==> r.ops.Keys == {} && r.ops == map[];
  }

  lemma EndedCommit(lay: Layout, s: Sys, t: Tid)
    requires CommitInv(lay, s) && s.commits == map[] && !s.committing && !s.recovering
    requires Ended(s, t).outstanding == 0 ==> s.dirty == {}
    ensures CommitInv(lay, Ended(s, t))
  {
    hide HeaderOf;
    hide Word;
    var r := Ended(s, t);
    if r.outstanding == 0 {
      assert r.commits.Keys == {t};
      assert PcInv(lay, r, t);
    }
  }

  lemma EndedDirty(lay: Layout, s: Sys, t: Tid)
    requires DirtyInv(lay, s) && Enabled(lay, s, EndOp(t)) && s.commits == map[] && s.outstanding == |s.ops|
    ensures DirtyInv(lay, Ended(s, t))
    ensures Ended(s, t).outstanding == 0 ==> s.dirty == {}
  {
    assert (s.ops - {t}).Keys == s.ops.Keys - {t};
    assert |s.ops| == |s.ops.Keys|;
    if s.outstanding == 1 {
      assert |s.ops.Keys - {t}| == 0;
      assert s.ops - {t} == map[];
    }
  }

  lemma EndedInv(lay: Layout, s: Sys, t: Tid)
    requires CacheInv(lay, s) && DirtyInv(lay, s) && OpInv(s) && CommitInv(lay, s) && Enabled(lay, s, EndOp(t))
    requires !s.committing && !s.recovering && s.commits == map[]
    ensures CacheInv(lay, Ended(s, t)) && DirtyInv(lay, Ended(s, t)) && OpInv(Ended(s, t))
            && CommitInv(lay, Ended(s, t))
  {
    hide CacheInv;
    hide DirtyInv;
    hide CommitInv;
    hide OpInv;
    hide HeaderOf;
    hide Word;
    Outstanding(s);
    EndedOps(s, t);
    EndedDirty(lay, s, t);
    SameCache(lay, s, Ended(s, t));
    EndedCommit(lay, s, t);
  }

  /** end_op never panics; the last operation out becomes the committer. */
  lemma EndOpKeeps(lay: Layout, s: Sys, t: Tid)
    requires Inv(lay, s) && Enabled(lay, s, EndOp(t))
    ensures Simulates(lay, s, Apply(lay, s, EndOp(t)), End(t))
  {
    hide CacheInv;
    hide DirtyInv;
    hide CommitInv;
    hide Alpha;
    hide OpInv;
    hide HeaderOf;
    hide Word;
    Parts(lay, s);
    NoCommitInOp(lay, s);
    var r := Ended(s, t);
    EndedInv(lay, s, t);
    SameViews(lay, s, r);
    ActiveAre(lay, s);
    assert r.ops.Keys == s.ops.Keys - {t};
    Assemble(lay, s, r, End(t));
  }
}
