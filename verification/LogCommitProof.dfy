/** commit(), recover_from_log() and power loss: the steps of the log thread
    keep the invariant, and the header write is the one moment at which the
    durable contents change. */
module LogCommitProof {
  import opened Base
  import opened Blocks
  import opened LogFormat
  import opened TxStore
  import opened LogMachine
  import opened LogProof

  lemma LogThreadOps(s: Sys, r: Sys)
    requires OpInv(s) && s.ops == map[] && r.ops == map[] && r.outstanding == s.outstanding
    requires |r.lh| <= LOGBLOCKS && (r.commits == map[] ==> r.lh == [])
    ensures OpInv(r)
  {
  }

  lemma LogThreadAlone(lay: Layout, s: Sys, t: Tid)
    requires OpInv(s) && CommitInv(lay, s) && t in s.commits
    ensures s.ops == map[] && s.outstanding == 0 && (s.committing || s.recovering) && !(s.committing && s.recovering)
    ensures s.commits == map[t := s.commits[t]]
    ensures lay.DiskOk(s.disk) && lay.HeaderOk(s.lh) && PcInv(lay, s, t) && s.unpinned <= |s.lh|
  {
    hide PcInv;
    hide HeaderOf;
    hide Word;
    hide Reserve;
    assert forall u :: u in s.commits ==> u == t;
    assert s.commits.Keys == {t};
  }

  lemma LogThreadInv(lay: Layout, r: Sys, t: Tid)
    requires r.commits.Keys == {t} && (r.committing || r.recovering) && !(r.committing && r.recovering)
    requires lay.DiskOk(r.disk) && lay.HeaderOk(r.lh) && r.unpinned <= |r.lh| && PcInv(lay, r, t)
    ensures CommitInv(lay, r)
  {
    hide PcInv;
    hide HeaderOf;
    hide Word;
  }

  /** bwrite of the dirty buffer keeps the cache in order: it is clean again. */
  lemma PutCache(lay: Layout, s: Sys, b: nat)
    requires CacheInv(lay, s) && b in s.cache && b < |s.disk|
    ensures CacheInv(lay, Put(s, b))
  {
    var r := Put(s, b);
    assert Pins(r) == Pins(s);
    hide Pins;
    forall c | c in r.cache
      ensures c < lay.size && BufInv(r, c)
    {
      assert BufInv(s, c);
    }
  }

  /** The views do not change when home views and the recovered disk do not. */
  lemma SameAlpha(lay: Layout, s: Sys, r: Sys)
    requires lay.DiskOk(s.disk) && lay.DiskOk(r.disk) && r.ops.Keys == s.ops.Keys
    requires lay.SameHome(Recovered(lay, s.disk), Recovered(lay, r.disk))
    requires forall b :: 0 <= b < lay.size && lay.Home(b) ==> View(lay, r, b) == View(lay, s, b)
    ensures Alpha(lay, r) == Alpha(lay, s)
  {
    hide Recovered;
    hide HeaderOf;
    hide Word;
    hide View;
    assert forall b :: b in Homes(lay) ==> Recovered(lay, s.disk)[b] == Recovered(lay, r.disk)[b];
  }

  // ---------- write_log ----------

  lemma LogCopyInv(lay: Layout, s: Sys, t: Tid, i: nat)
    requires CacheInv(lay, s) && CommitInv(lay, s) && OpInv(s)
    requires Enabled(lay, s, Advance(t)) && s.commits[t] == LogCopy(i) && i < |s.lh|
    ensures CommitInv(lay, AdvanceStep(lay, s, t)) && DirtyInv(lay, AdvanceStep(lay, s, t))
  {
    hide CacheInv;
    hide CommitInv;
    hide OpInv;
    hide Word;
    hide HeaderOf;
    LogThreadAlone(lay, s, t);
    var r := AdvanceStep(lay, s, t);
    assert forall j :: 0 <= j < |s.lh| ==> s.lh[j] != lay.start + 1 + i;
    assert Logged(lay, r, 0, i);
    LogThreadInv(lay, r, t);
  }

  lemma LogCopyKeeps(lay: Layout, s: Sys, t: Tid, i: nat)
    requires Inv(lay, s) && Enabled(lay, s, Advance(t)) && s.commits[t] == LogCopy(i) && i < |s.lh|
    ensures Simulates(lay, s, Apply(lay, s, Advance(t)), Stutter)
  {
    hide CacheInv;
    hide DirtyInv;
    hide CommitInv;
    hide OpInv;
    hide Alpha;
    hide Recovered;
    hide HeaderOf;
    hide Word;
    hide PcInv;
    Parts(lay, s);
    LogThreadAlone(lay, s, t);
    var r := AdvanceStep(lay, s, t);
    LogThreadOps(s, r);
    LogCopyInv(lay, s, t, i);
    var v := s.cache[s.lh[i]].data;
    MemmoveCache(lay, s, lay.start + 1 + i, v);
    SameCache(lay, Memmove(s, lay.start + 1 + i, v), r);
    SameAlpha(lay, s, r);
    Assemble(lay, s, r, Stutter);
  }

  lemma LogPutInv(lay: Layout, s: Sys, t: Tid, i: nat)
    requires CacheInv(lay, s) && CommitInv(lay, s) && OpInv(s)
    requires Enabled(lay, s, Advance(t)) && s.commits[t] == LogPut(i)
    ensures CommitInv(lay, AdvanceStep(lay, s, t)) && DirtyInv(lay, AdvanceStep(lay, s, t))
  {
    hide CacheInv;
    hide CommitInv;
    hide OpInv;
    hide Word;
    hide HeaderOf;
    LogThreadAlone(lay, s, t);
    var r := AdvanceStep(lay, s, t);
    assert lay.DiskOk(r.disk);
    assert Logged(lay, r, 0, i + 1);
    LogThreadInv(lay, r, t);
  }

  lemma LogPutKeeps(lay: Layout, s: Sys, t: Tid, i: nat)
    requires Inv(lay, s) && Enabled(lay, s, Advance(t)) && s.commits[t] == LogPut(i)
    ensures Simulates(lay, s, Apply(lay, s, Advance(t)), Stutter)
  {
    hide CacheInv;
    hide DirtyInv;
    hide CommitInv;
    hide OpInv;
    hide Alpha;
    hide Recovered;
    hide HeaderOf;
    hide Word;
    Parts(lay, s);
    LogThreadAlone(lay, s, t);
    var r := AdvanceStep(lay, s, t);
    LogThreadOps(s, r);
    LogPutInv(lay, s, t, i);
    PutCache(lay, s, lay.start + 1 + i);
    SameCache(lay, Put(s, lay.start + 1 + i), r);
    RecoveredAgree(lay, s.disk, r.disk);
    SameAlpha(lay, s, r);
    Assemble(lay, s, r, Stutter);
  }

  // ---------- write_head: the commit point ----------

  lemma HeadFillInv(lay: Layout, s: Sys, t: Tid, i: nat)
    requires CacheInv(lay, s) && CommitInv(lay, s) && OpInv(s)
    requires Enabled(lay, s, Advance(t)) && s.commits[t] == LogCopy(i) && i >= |s.lh|
    ensures CommitInv(lay, AdvanceStep(lay, s, t)) && DirtyInv(lay, AdvanceStep(lay, s, t))
  {
    hide CacheInv;
    hide CommitInv;
    hide OpInv;
    hide Word;
    hide HeaderOf;
    hide FillHeader;
    LogThreadAlone(lay, s, t);
    var r := AdvanceStep(lay, s, t);
    HeaderRoundTrip(s.cache[lay.start].data, s.lh);
    assert Logged(lay, r, 0, |s.lh|);
    LogThreadInv(lay, r, t);
  }

  lemma HeadFillKeeps(lay: Layout, s: Sys, t: Tid, i: nat)
    requires Inv(lay, s) && Enabled(lay, s, Advance(t)) && s.commits[t] == LogCopy(i) && i >= |s.lh|
    ensures Simulates(lay, s, Apply(lay, s, Advance(t)), Stutter)
  {
    hide CacheInv;
    hide DirtyInv;
    hide CommitInv;
    hide OpInv;
    hide Alpha;
    hide Recovered;
    hide HeaderOf;
    hide Word;
    hide PcInv;
    hide FillHeader;
    Parts(lay, s);
    LogThreadAlone(lay, s, t);
    var r := AdvanceStep(lay, s, t);
    LogThreadOps(s, r);
    HeadFillInv(lay, s, t, i);
    var v := FillHeader(s.cache[lay.start].data, s.lh);
    MemmoveCache(lay, s, lay.start, v);
    SameCache(lay, Memmove(s, lay.start, v), r);
    SameAlpha(lay, s, r);
    Assemble(lay, s, r, Stutter);
  }

  lemma HeadPutInv(lay: Layout, s: Sys, t: Tid)
    requires CacheInv(lay, s) && CommitInv(lay, s) && OpInv(s)
    requires Enabled(lay, s, Advance(t)) && s.commits[t] == HeadPut
    ensures CommitInv(lay, AdvanceStep(lay, s, t)) && DirtyInv(lay, AdvanceStep(lay, s, t))
  {
    hide CacheInv;
    hide CommitInv;
    hide OpInv;
    hide Word;
    hide HeaderOf;
    LogThreadAlone(lay, s, t);
    var r := AdvanceStep(lay, s, t);
    assert lay.DiskOk(r.disk);
    assert Logged(lay, r, 0, |s.lh|);
    LogThreadInv(lay, r, t);
  }

  /** Once a block that decodes to the full header is on disk, what recovery
      would restore is exactly what readers see. */
  lemma HeadDurable(lay: Layout, s: Sys, t: Tid, m: Block)
    requires CacheInv(lay, s) && CommitInv(lay, s) && OpInv(s)
    requires t in s.commits && s.commits[t] == HeadPut && lay.start in s.cache
    requires Word(m, 0) <= LOGBLOCKS && HeaderOf(m) == s.lh
    ensures lay.DiskOk(s.disk[lay.start := m])
    ensures forall b :: 0 <= b < lay.size && lay.Home(b) ==>
              Recovered(lay, s.disk[lay.start := m])[b] == View(lay, s, b)
  {
    hide Recovered;
    hide Word;
    hide HeaderOf;
    LogThreadAlone(lay, s, t);
    var d := s.disk[lay.start := m];
    assert Pins(s) == s.lh;
    forall b | 0 <= b < lay.size && lay.Home(b)
      ensures Recovered(lay, d)[b] == View(lay, s, b)
    {
      RecoveredAt(lay, d, b);
      if b in s.lh {
        var j :| 0 <= j < |s.lh| && s.lh[j] == b;
        assert lay.Slot(s.disk, j) == s.cache[b].data;
        assert lay.Slot(d, j) == lay.Slot(s.disk, j);
      } else if b in s.cache {
        assert BufInv(s, b);
      }
    }
  }

  lemma CommitAlpha(lay: Layout, s: Sys, r: Sys)
    requires lay.DiskOk(s.disk) && lay.DiskOk(r.disk) && s.ops == map[] && r.ops == map[]
    requires forall b :: 0 <= b < lay.size && lay.Home(b) ==>
               Recovered(lay, r.disk)[b] == View(lay, s, b) == View(lay, r, b)
    ensures Allowed(Alpha(lay, s), Commit)
    ensures Alpha(lay, r) == After(Alpha(lay, s), Commit)
  {
    hide Recovered;
    hide HeaderOf;
    hide Word;
    hide View;
  }

  /** The header write is the commit: everything every finished operation
      wrote becomes durable at once. */
  lemma HeadPutKeeps(lay: Layout, s: Sys, t: Tid)
    requires Inv(lay, s) && Enabled(lay, s, Advance(t)) && s.commits[t] == HeadPut
    ensures Simulates(lay, s, Apply(lay, s, Advance(t)), Commit)
  {
    hide CacheInv;
    hide DirtyInv;
    hide CommitInv;
    hide OpInv;
    hide Alpha;
    hide Recovered;
    hide HeaderOf;
    hide Word;
    Parts(lay, s);
    LogThreadAlone(lay, s, t);
    var r := AdvanceStep(lay, s, t);
    LogThreadOps(s, r);
    HeadPutInv(lay, s, t);
    HeadDurable(lay, s, t, s.cache[lay.start].data);
    PutCache(lay, s, lay.start);
    SameCache(lay, Put(s, lay.start), r);
    CommitAlpha(lay, s, r);
    Assemble(lay, s, r, Commit);
  }

  // ---------- install_trans ----------

  lemma SlotClean(lay: Layout, s: Sys, i: nat)
    requires CacheInv(lay, s) && lay.HeaderOk(s.lh) && i < LOGBLOCKS && s.dirty == {}
    requires lay.start + 1 + i in s.cache && s.cache[lay.start + 1 + i].valid
    ensures s.cache[lay.start + 1 + i].data == lay.Slot(s.disk, i)
  {
    assert BufInv(s, lay.start + 1 + i);
    assert lay.start + 1 + i !in Pins(s);
  }

  lemma HomeCopyInv(lay: Layout, s: Sys, t: Tid, i: nat)
    requires CacheInv(lay, s) && CommitInv(lay, s) && OpInv(s)
    requires Enabled(lay, s, Advance(t)) && s.commits[t] == HomeCopy(i) && i < |s.lh|
    ensures CommitInv(lay, AdvanceStep(lay, s, t)) && DirtyInv(lay, AdvanceStep(lay, s, t))
  {
    hide CacheInv;
    hide CommitInv;
    hide OpInv;
    hide Word;
    hide HeaderOf;
    LogThreadAlone(lay, s, t);
    var r := AdvanceStep(lay, s, t);
    SlotClean(lay, s, i);
    assert !s.recovering ==> Logged(lay, r, i, |s.lh|);
    assert Installed(lay, r.disk, r.lh, i);
    LogThreadInv(lay, r, t);
  }

  lemma HomeCopyKeeps(lay: Layout, s: Sys, t: Tid, i: nat)
    requires Inv(lay, s) && Enabled(lay, s, Advance(t)) && s.commits[t] == HomeCopy(i) && i < |s.lh|
    ensures Simulates(lay, s, Apply(lay, s, Advance(t)), Stutter)
  {
    hide CacheInv;
    hide DirtyInv;
    hide CommitInv;
    hide OpInv;
    hide Alpha;
    hide Recovered;
    hide HeaderOf;
    hide Word;
    hide PcInv;
    Parts(lay, s);
    LogThreadAlone(lay, s, t);
    var r := AdvanceStep(lay, s, t);
    LogThreadOps(s, r);
    HomeCopyInv(lay, s, t, i);
    if !s.recovering {
      HomeCopySame(lay, s, t, i);
    }
    var v := s.cache[lay.start + 1 + i].data;
    MemmoveCache(lay, s, s.lh[i], v);
    SameCache(lay, Memmove(s, s.lh[i], v), r);
    SameAlpha(lay, s, r);
    Assemble(lay, s, r, Stutter);
  }

  /** During a commit the copy home changes nothing: the pinned buffer already
      holds what its log block holds. */
  lemma HomeCopySame(lay: Layout, s: Sys, t: Tid, i: nat)
    requires CacheInv(lay, s) && CommitInv(lay, s) && OpInv(s)
    requires t in s.commits && s.commits[t] == HomeCopy(i) && i < |s.lh|
    requires Holds(s, t, lay.start + 1 + i) && s.lh[i] in s.cache && !s.recovering
    ensures s.cache[lay.start + 1 + i].data == s.cache[s.lh[i]].data
  {
    hide CacheInv;
    hide CommitInv;
    hide OpInv;
    hide HeaderOf;
    hide Word;
    LogThreadAlone(lay, s, t);
    SlotClean(lay, s, i);
  }

  lemma HomePutInv(lay: Layout, s: Sys, t: Tid, i: nat)
    requires CacheInv(lay, s) && CommitInv(lay, s) && OpInv(s)
    requires Enabled(lay, s, Advance(t)) && s.commits[t] == HomePut(i)
    ensures CommitInv(lay, AdvanceStep(lay, s, t)) && DirtyInv(lay, AdvanceStep(lay, s, t))
  {
    hide CacheInv;
    hide CommitInv;
    hide OpInv;
    hide Word;
    hide HeaderOf;
    LogThreadAlone(lay, s, t);
    var r := AdvanceStep(lay, s, t);
    assert lay.DiskOk(r.disk);
    assert r.disk == s.disk[s.lh[i] := lay.Slot(s.disk, i)];
    assert Installed(lay, r.disk, r.lh, i + 1);
    assert !s.recovering ==> Logged(lay, r, i + 1, |s.lh|);
    LogThreadInv(lay, r, t);
  }

  /** bunpin after the home write: the buffer loses its pin and is clean. */
  lemma HomePutCache(lay: Layout, s: Sys, t: Tid, i: nat)
    requires CacheInv(lay, s) && CommitInv(lay, s) && OpInv(s)
    requires Enabled(lay, s, Advance(t)) && s.commits[t] == HomePut(i)
    ensures CacheInv(lay, AdvanceStep(lay, s, t))
  {
    hide HeaderOf;
    hide Word;
    hide CacheInv;
    hide BufInv;
    LogThreadAlone(lay, s, t);
    hide CommitInv;
    hide OpInv;
    var r := AdvanceStep(lay, s, t);
    if s.recovering {
      PutCache(lay, s, s.lh[i]);
      SameCache(lay, Put(s, s.lh[i]), r);
    } else {
      UnpinCache(lay, s, r, i);
    }
  }

  lemma UnpinCache(lay: Layout, s: Sys, r: Sys, i: nat)
    requires CacheInv(lay, s) && lay.HeaderOk(s.lh) && !s.recovering && !r.recovering
    requires i < |s.lh| && s.unpinned == i && r.unpinned == i + 1 && r.lh == s.lh && s.lh[i] in s.cache
    requires s.cache[s.lh[i]].refcnt > 0
    requires r.disk == s.disk[s.lh[i] := s.cache[s.lh[i]].data] && r.dirty == s.dirty - {s.lh[i]}
    requires r.cache == s.cache[s.lh[i] := s.cache[s.lh[i]].(refcnt := s.cache[s.lh[i]].refcnt - 1)]
    ensures CacheInv(lay, r)
  {
    var b := s.lh[i];
    assert Pins(s) == [b] + Pins(r);
    assert b !in Pins(r);
    assert b in Pins(s);
    hide Pins;
    assert r.cache.Keys == s.cache.Keys;
    assert |r.cache| == |r.cache.Keys| && |s.cache| == |s.cache.Keys|;
    forall c | c in r.cache
      ensures c < lay.size && BufInv(r, c)
    {
      assert BufInv(s, c);
    }
  }

  lemma HomePutKeeps(lay: Layout, s: Sys, t: Tid, i: nat)
    requires Inv(lay, s) && Enabled(lay, s, Advance(t)) && s.commits[t] == HomePut(i)
    ensures Simulates(lay, s, Apply(lay, s, Advance(t)), Stutter)
  {
    hide CacheInv;
    hide DirtyInv;
    hide CommitInv;
    hide OpInv;
    hide Alpha;
    hide Recovered;
    hide HeaderOf;
    hide Word;
    Parts(lay, s);
    LogThreadAlone(lay, s, t);
    var r := AdvanceStep(lay, s, t);
    LogThreadOps(s, r);
    HomePutInv(lay, s, t, i);
    HomePutCache(lay, s, t, i);
    assert r.disk == s.disk[s.lh[i] := s.cache[s.lh[i]].data];
    assert forall j :: 0 <= j < |s.lh| ==> lay.Slot(r.disk, j) == lay.Slot(s.disk, j);
    RecoveredAgree(lay, s.disk, r.disk);
    SameAlpha(lay, s, r);
    Assemble(lay, s, r, Stutter);
  }

  lemma HomeDoneInv(lay: Layout, s: Sys, t: Tid, i: nat)
    requires CacheInv(lay, s) && CommitInv(lay, s) && OpInv(s)
    requires Enabled(lay, s, Advance(t)) && s.commits[t] == HomeCopy(i) && i >= |s.lh|
    ensures CommitInv(lay, AdvanceStep(lay, s, t)) && DirtyInv(lay, AdvanceStep(lay, s, t))
  {
    hide CacheInv;
    hide CommitInv;
    hide OpInv;
    hide Word;
    hide HeaderOf;
    LogThreadAlone(lay, s, t);
    var r := AdvanceStep(lay, s, t);
    LogThreadInv(lay, r, t);
  }

  lemma HomeDoneKeeps(lay: Layout, s: Sys, t: Tid, i: nat)
    requires Inv(lay, s) && Enabled(lay, s, Advance(t)) && s.commits[t] == HomeCopy(i) && i >= |s.lh|
    ensures Simulates(lay, s, Apply(lay, s, Advance(t)), Stutter)
  {
    hide CacheInv;
    hide DirtyInv;
    hide CommitInv;
    hide OpInv;
    hide Alpha;
    hide Recovered;
    hide HeaderOf;
    hide Word;
    Parts(lay, s);
    LogThreadAlone(lay, s, t);
    var r := AdvanceStep(lay, s, t);
    LogThreadOps(s, r);
    HomeDoneInv(lay, s, t, i);
    SameCache(lay, s, r);
    SameAlpha(lay, s, r);
    Assemble(lay, s, r, Stutter);
  }

  // ---------- erasing the header ----------

  lemma ClearFillInv(lay: Layout, s: Sys, t: Tid)
    requires CacheInv(lay, s) && CommitInv(lay, s) && OpInv(s)
    requires Enabled(lay, s, Advance(t)) && s.commits[t] == ClearFill
    ensures CommitInv(lay, AdvanceStep(lay, s, t)) && DirtyInv(lay, AdvanceStep(lay, s, t))
  {
    hide CacheInv;
    hide CommitInv;
    hide OpInv;
    hide Word;
    hide HeaderOf;
    hide FillHeader;
    LogThreadAlone(lay, s, t);
    HeaderRoundTrip(s.cache[lay.start].data, []);
    LogThreadInv(lay, AdvanceStep(lay, s, t), t);
  }

  lemma ClearFillKeeps(lay: Layout, s: Sys, t: Tid)
    requires Inv(lay, s) && Enabled(lay, s, Advance(t)) && s.commits[t] == ClearFill
    ensures Simulates(lay, s, Apply(lay, s, Advance(t)), Stutter)
  {
    hide CacheInv;
    hide DirtyInv;
    hide CommitInv;
    hide OpInv;
    hide Alpha;
    hide Recovered;
    hide HeaderOf;
    hide Word;
    hide PcInv;
    hide FillHeader;
    Parts(lay, s);
    LogThreadAlone(lay, s, t);
    var r := AdvanceStep(lay, s, t);
    LogThreadOps(s, r);
    ClearFillInv(lay, s, t);
    var v := FillHeader(s.cache[lay.start].data, []);
    MemmoveCache(lay, s, lay.start, v);
    SameCache(lay, Memmove(s, lay.start, v), r);
    SameAlpha(lay, s, r);
    Assemble(lay, s, r, Stutter);
  }

  lemma ClearPutInv(lay: Layout, s: Sys, t: Tid)
    requires CacheInv(lay, s) && CommitInv(lay, s) && OpInv(s)
    requires Enabled(lay, s, Advance(t)) && s.commits[t] == ClearPut
    ensures CommitInv(lay, AdvanceStep(lay, s, t)) && DirtyInv(lay, AdvanceStep(lay, s, t))
    ensures lay.DiskOk(AdvanceStep(lay, s, t).disk)
    ensures lay.SameHome(Recovered(lay, s.disk), Recovered(lay, AdvanceStep(lay, s, t).disk))
  {
    hide CacheInv;
    hide CommitInv;
    hide OpInv;
    hide Word;
    hide HeaderOf;
    hide Recovered;
    LogThreadAlone(lay, s, t);
    EraseHeader(lay, s.disk, s.cache[lay.start].data);
    LogThreadInv(lay, AdvanceStep(lay, s, t), t);
  }

  lemma ClearPutKeeps(lay: Layout, s: Sys, t: Tid)
    requires Inv(lay, s) && Enabled(lay, s, Advance(t)) && s.commits[t] == ClearPut
    ensures Simulates(lay, s, Apply(lay, s, Advance(t)), Stutter)
  {
    hide CacheInv;
    hide DirtyInv;
    hide CommitInv;
    hide OpInv;
    hide Alpha;
    hide Recovered;
    hide HeaderOf;
    hide Word;
    hide PcInv;
    Parts(lay, s);
    LogThreadAlone(lay, s, t);
    var r := AdvanceStep(lay, s, t);
    LogThreadOps(s, r);
    ClearPutInv(lay, s, t);
    PutCache(lay, s, lay.start);
    SameCache(lay, Put(s, lay.start), r);
    SameAlpha(lay, s, r);
    Assemble(lay, s, r, Stutter);
  }

  lemma FinishedInv(lay: Layout, s: Sys, t: Tid)
    requires CacheInv(lay, s) && CommitInv(lay, s) && OpInv(s)
    requires t in s.commits && s.commits[t] == Finished
    ensures CommitInv(lay, AdvanceStep(lay, s, t)) && DirtyInv(lay, AdvanceStep(lay, s, t))
    ensures Pins(s) == [] && Pins(AdvanceStep(lay, s, t)) == [] && OpInv(AdvanceStep(lay, s, t))
  {
    hide CacheInv;
    hide Word;
    hide HeaderOf;
    LogThreadAlone(lay, s, t);
    var r := AdvanceStep(lay, s, t);
    assert r.commits == map[];
  }

  /** When recovery or a commit ends, the cache and the disk agree with what
      recovery would restore. */
  lemma FinishedViews(lay: Layout, s: Sys, t: Tid)
    requires CacheInv(lay, s) && CommitInv(lay, s) && OpInv(s)
    requires t in s.commits && s.commits[t] == Finished
    ensures forall b :: 0 <= b < lay.size && lay.Home(b) ==> View(lay, AdvanceStep(lay, s, t), b) == View(lay, s, b)
  {
    hide Word;
    hide HeaderOf;
    LogThreadAlone(lay, s, t);
    hide CommitInv;
    hide OpInv;
    if s.recovering {
      RecoveredInstalled(lay, s.disk);
      forall b | 0 <= b < lay.size && lay.Home(b) && b in s.cache
        ensures BufInv(s, b)
      {
      }
    }
  }

  lemma FinishedKeeps(lay: Layout, s: Sys, t: Tid)
    requires Inv(lay, s) && Enabled(lay, s, Advance(t)) && s.commits[t] == Finished
    ensures Simulates(lay, s, Apply(lay, s, Advance(t)), Stutter)
  {
    hide CacheInv;
    hide DirtyInv;
    hide CommitInv;
    hide OpInv;
    hide Alpha;
    hide Recovered;
    hide HeaderOf;
    hide Word;
    hide PcInv;
    Parts(lay, s);
    LogThreadAlone(lay, s, t);
    var r := AdvanceStep(lay, s, t);
    FinishedInv(lay, s, t);
    SameCache(lay, s, r);
    FinishedViews(lay, s, t);
    SameAlpha(lay, s, r);
    Assemble(lay, s, r, Stutter);
  }

  // ---------- recovery and power loss ----------

  lemma ReadHeadInv(lay: Layout, s: Sys, t: Tid)
    requires CacheInv(lay, s) && CommitInv(lay, s) && OpInv(s)
    requires Enabled(lay, s, Advance(t)) && s.commits[t] == ReadHead
    ensures CommitInv(lay, AdvanceStep(lay, s, t)) && DirtyInv(lay, AdvanceStep(lay, s, t))
  {
    hide CommitInv;
    hide OpInv;
    hide Word;
    hide HeaderOf;
    LogThreadAlone(lay, s, t);
    var r := AdvanceStep(lay, s, t);
    assert BufInv(s, lay.start);
    assert s.cache[lay.start].data == s.disk[lay.start];
    LogThreadInv(lay, r, t);
  }

  lemma ReadHeadKeeps(lay: Layout, s: Sys, t: Tid)
    requires Inv(lay, s) && Enabled(lay, s, Advance(t)) && s.commits[t] == ReadHead
    ensures Simulates(lay, s, Apply(lay, s, Advance(t)), Stutter)
  {
    hide CacheInv;
    hide DirtyInv;
    hide OpInv;
    hide Alpha;
    hide Recovered;
    hide Word;
    hide HeaderOf;
    Parts(lay, s);
    LogThreadAlone(lay, s, t);
    var r := AdvanceStep(lay, s, t);
    ReadHeadInv(lay, s, t);
    LogThreadOps(s, r);
    SameCache(lay, s, r);
    SameAlpha(lay, s, r);
    Assemble(lay, s, r, Stutter);
  }

  lemma BootInv(lay: Layout, d: Disk, t: Tid)
    requires lay.DiskOk(d)
    ensures Inv(lay, Boot(d, t))
  {
    hide HeaderOf;
    hide Word;
    assert Boot(d, t).commits.Keys == {t};
    LogThreadInv(lay, Boot(d, t), t);
  }

  lemma PowerLossAlpha(lay: Layout, s: Sys, d: Disk, boot: Tid)
    requires lay.DiskOk(s.disk) && lay.DiskOk(d)
    requires lay.SameHome(Recovered(lay, s.disk), Recovered(lay, d))
    ensures Alpha(lay, Boot(d, boot)) == After(Alpha(lay, s), Crash)
  {
    hide Recovered;
    hide HeaderOf;
    hide Word;
    var r := Boot(d, boot);
    assert forall b :: b in Homes(lay) ==> View(lay, r, b) == Recovered(lay, s.disk)[b];
    assert Alpha(lay, r).current == Alpha(lay, s).durable;
    assert Alpha(lay, r).durable == Alpha(lay, s).durable;
  }

  /** A crash in the middle of a block write tears at most that block, and no
      tear but the header's can matter to recovery. */
  lemma TornData(lay: Layout, s: Sys, t: Tid, m: Block)
    requires CacheInv(lay, s) && CommitInv(lay, s) && OpInv(s) && t in s.commits
    requires s.commits[t].LogPut? || s.commits[t].HomePut?
    ensures Target(lay, s, s.commits[t]).Some? && Target(lay, s, s.commits[t]).value < lay.size
    ensures lay.DiskOk(s.disk[Target(lay, s, s.commits[t]).value := m])
    ensures lay.SameHome(Recovered(lay, s.disk), Recovered(lay, s.disk[Target(lay, s, s.commits[t]).value := m]))
  {
    hide CacheInv;
    hide Word;
    hide HeaderOf;
    hide Recovered;
    LogThreadAlone(lay, s, t);
    hide CommitInv;
    hide OpInv;
    var d := s.disk[Target(lay, s, s.commits[t]).value := m];
    assert s.commits[t].HomePut? ==> forall j :: 0 <= j < |s.lh| ==> lay.Slot(d, j) == lay.Slot(s.disk, j);
    RecoveredAgree(lay, s.disk, d);
  }

  lemma SameHeaderSameRecovery(lay: Layout, d: Disk, m: Block)
    requires lay.DiskOk(d) && Word(m, 0) <= LOGBLOCKS && HeaderOf(m) == HeaderOf(d[lay.start])
    ensures lay.DiskOk(d[lay.start := m])
    ensures lay.SameHome(Recovered(lay, d), Recovered(lay, d[lay.start := m]))
  {
    hide Word;
    hide HeaderOf;
    hide Recovered;
    var e := d[lay.start := m];
    assert forall j :: 0 <= j < LOGBLOCKS ==> lay.Slot(d, j) == lay.Slot(e, j);
    RecoveredAgree(lay, d, e);
  }

  /** A tear of the erasing header write leaves the old header or the empty
      one, and both recover to the same contents. */
  lemma TornErase(lay: Layout, s: Sys, t: Tid, m: Block)
    requires CacheInv(lay, s) && CommitInv(lay, s) && OpInv(s) && t in s.commits && s.commits[t] == ClearPut
    requires lay.start in s.cache && Torn(s.disk[lay.start], s.cache[lay.start].data, m)
    ensures lay.DiskOk(s.disk[lay.start := m])
    ensures lay.SameHome(Recovered(lay, s.disk), Recovered(lay, s.disk[lay.start := m]))
  {
    hide CacheInv;
    hide Word;
    hide HeaderOf;
    hide Recovered;
    hide Torn;
    LogThreadAlone(lay, s, t);
    hide CommitInv;
    hide OpInv;
    TornHeader(s.disk[lay.start], s.cache[lay.start].data, m);
    if HeaderOf(m) == HeaderOf(s.disk[lay.start]) {
      SameHeaderSameRecovery(lay, s.disk, m);
    } else {
      EraseHeader(lay, s.disk, m);
    }
  }

  /** A tear of the committing header write either loses the transaction as a
      whole or commits it as a whole. */
  lemma TornCommit(lay: Layout, s: Sys, t: Tid, boot: Tid, m: Block) returns (e: Event)
    requires CacheInv(lay, s) && CommitInv(lay, s) && OpInv(s) && t in s.commits && s.commits[t] == HeadPut
    requires lay.start in s.cache && Torn(s.disk[lay.start], s.cache[lay.start].data, m)
    ensures e == Crash || e == CommitThenCrash
    ensures lay.DiskOk(s.disk) && lay.DiskOk(s.disk[lay.start := m])
    ensures Allowed(Alpha(lay, s), e) && Alpha(lay, Boot(s.disk[lay.start := m], boot)) == After(Alpha(lay, s), e)
  {
    hide CacheInv;
    hide CommitInv;
    hide OpInv;
    hide Word;
    hide HeaderOf;
    hide Recovered;
    hide Torn;
    LogThreadAlone(lay, s, t);
    TornHeader(s.disk[lay.start], s.cache[lay.start].data, m);
    var d := s.disk[lay.start := m];
    if HeaderOf(m) == HeaderOf(s.disk[lay.start]) {
      SameHeaderSameRecovery(lay, s.disk, m);
      PowerLossAlpha(lay, s, d, boot);
      e := Crash;
    } else {
      HeadDurable(lay, s, t, m);
      CommitBoot(lay, s, d, boot);
      e := CommitThenCrash;
    }
  }

  lemma CommitBoot(lay: Layout, s: Sys, d: Disk, boot: Tid)
    requires lay.DiskOk(s.disk) && lay.DiskOk(d) && s.ops == map[]
    requires forall b :: 0 <= b < lay.size && lay.Home(b) ==> Recovered(lay, d)[b] == View(lay, s, b)
    ensures Allowed(Alpha(lay, s), CommitThenCrash)
    ensures Alpha(lay, Boot(d, boot)) == After(Alpha(lay, s), CommitThenCrash)
  {
    hide Recovered;
    hide HeaderOf;
    hide Word;
    var r := Boot(d, boot);
    assert forall b :: b in Homes(lay) ==> View(lay, r, b) == View(lay, s, b);
    assert Alpha(lay, r).current == Alpha(lay, s).current;
    assert Alpha(lay, r).durable == Alpha(lay, s).current;
  }

  lemma PowerLossKeeps(lay: Layout, s: Sys, boot: Tid)
    requires Inv(lay, s)
    ensures Simulates(lay, s, Boot(s.disk, boot), Crash)
  {
    hide Inv;
    hide Alpha;
    hide Recovered;
    hide HeaderOf;
    hide Word;
    Parts(lay, s);
    BootInv(lay, s.disk, boot);
    PowerLossAlpha(lay, s, s.disk, boot);
  }

  lemma TornWriteKeeps(lay: Layout, s: Sys, t: Tid, boot: Tid, m: Block) returns (e: Event)
    requires Inv(lay, s) && Enabled(lay, s, PowerLossInWrite(t, boot, m))
    ensures e == Crash || (e == CommitThenCrash && s.commits[t] == HeadPut)
    ensures Simulates(lay, s, Apply(lay, s, PowerLossInWrite(t, boot, m)), e)
  {
    hide Inv;
    hide CacheInv;
    hide CommitInv;
    hide OpInv;
    hide DirtyInv;
    hide Alpha;
    hide Recovered;
    hide HeaderOf;
    hide Word;
    hide Torn;
    Parts(lay, s);
    var d := s.disk[Target(lay, s, s.commits[t]).value := m];
    if s.commits[t] == HeadPut {
      e := TornCommit(lay, s, t, boot, m);
    } else {
      e := Crash;
      if s.commits[t] == ClearPut {
        TornErase(lay, s, t, m);
      } else {
        TornData(lay, s, t, m);
      }
      PowerLossAlpha(lay, s, d, boot);
    }
    BootInv(lay, d, boot);
  }

  // ---------- every step, every run ----------

  lemma AdvanceKeeps(lay: Layout, s: Sys, t: Tid)
    requires Inv(lay, s) && Enabled(lay, s, Advance(t))
    ensures Simulates(lay, s, Apply(lay, s, Advance(t)), if s.commits[t] == HeadPut then Commit else Stutter)
  {
    hide Inv;
    hide Simulates;
    hide Apply;
    hide AdvanceEnabled;
    match s.commits[t]
    case LogCopy(i) =>
      if i < |s.lh| {
        LogCopyKeeps(lay, s, t, i);
      } else {
        HeadFillKeeps(lay, s, t, i);
      }
    case LogPut(i) => LogPutKeeps(lay, s, t, i);
    case HeadPut => HeadPutKeeps(lay, s, t);
    case HomeCopy(i) =>
      if i < |s.lh| {
        HomeCopyKeeps(lay, s, t, i);
      } else {
        HomeDoneKeeps(lay, s, t, i);
      }
    case HomePut(i) => HomePutKeeps(lay, s, t, i);
    case ClearFill => ClearFillKeeps(lay, s, t);
    case ClearPut => ClearPutKeeps(lay, s, t);
    case Finished => FinishedKeeps(lay, s, t);
    case ReadHead => ReadHeadKeeps(lay, s, t);
  }

  /** Which specification event a step may be. */
  ghost predicate Matches(s: Sys, st: Step, e: Event) {
    match st
    case BeginOp(t) => e == Begin(t)
    case Modify(t, b, v) => e == Write(t, b, v)
    case EndOp(t) => e == End(t)
    case Advance(t) => e == if t in s.commits && s.commits[t] == HeadPut then Commit else Stutter
    case PowerLoss(_) => e == Crash
    case PowerLossInWrite(t, _, _) => e == Crash || (e == CommitThenCrash && t in s.commits && s.commits[t] == HeadPut)
    case _ => e == Stutter
  }

  /** The same, without the state: begin_op, end_op and client writes are
      always visible events, commits come from the log thread alone. */
  ghost predicate Labels(st: Step, e: Event) {
    match st
    case BeginOp(t) => e == Begin(t)
    case Modify(t, b, v) => e == Write(t, b, v)
    case EndOp(t) => e == End(t)
    case Advance(_) => e == Commit || e == Stutter
    case PowerLoss(_) => e == Crash
    case PowerLossInWrite(_, _, _) => e == Crash || e == CommitThenCrash
    case _ => e == Stutter
  }

  lemma StepSimulates(lay: Layout, s: Sys, st: Step) returns (e: Event)
    requires Inv(lay, s) && Enabled(lay, s, st)
    ensures Matches(s, st, e)
    ensures Simulates(lay, s, Apply(lay, s, st), e)
  {
    hide Inv;
    hide Simulates;
    hide AdvanceEnabled;
    hide AdvanceStep;
    hide Torn;
    e := Stutter;
    match st
    case Bget(_, b, _, _) =>
      if b in s.cache {
        OneBufferKeeps(lay, s, st);
      } else {
        RecycleKeeps(lay, s, st);
      }
    case Lock(_, _) => OneBufferKeeps(lay, s, st);
    case Fill(_, _) => OneBufferKeeps(lay, s, st);
    case Unlock(_, _) => OneBufferKeeps(lay, s, st);
    case Unref(_, _) => OneBufferKeeps(lay, s, st);
    case BeginOp(t) =>
      BeginOpKeeps(lay, s, t);
      e := Begin(t);
    case Modify(t, b, v) =>
      ModifyKeeps(lay, s, t, b, v);
      e := Write(t, b, v);
    case LogWrite(t, b) => LogWriteKeeps(lay, s, t, b);
    case EndOp(t) =>
      EndOpKeeps(lay, s, t);
      e := End(t);
    case Advance(t) =>
      AdvanceKeeps(lay, s, t);
      e := if s.commits[t] == HeadPut then Commit else Stutter;
    case PowerLoss(boot) =>
      PowerLossKeeps(lay, s, boot);
      e := Crash;
    case PowerLossInWrite(t, boot, m) => e := TornWriteKeeps(lay, s, t, boot, m);
  }

  ghost predicate Run(lay: Layout, s: Sys, steps: seq<Step>, r: Sys)
    decreases |steps|
  {
    if steps == [] then s == r
    else Enabled(lay, s, steps[0]) && Run(lay, Apply(lay, s, steps[0]), steps[1..], r)
  }

  /** Every run of the log over the cache, with any interleaving and any power
      losses, is a history of the transactional store, and never panics. */
  lemma {:induction false} RunRefines(lay: Layout, s: Sys, steps: seq<Step>, r: Sys) returns (es: seq<Event>)
    requires Inv(lay, s) && Run(lay, s, steps, r)
    ensures Inv(lay, r) && !r.panicked && lay.DiskOk(s.disk) && lay.DiskOk(r.disk)
    ensures |es| == |steps|
    ensures forall i :: 0 <= i < |es| ==> Labels(steps[i], es[i])
    ensures History(Alpha(lay, s), es, Alpha(lay, r))
    decreases |steps|
  {
    hide Apply;
    hide Enabled;
    hide Alpha;
    hide CacheInv;
    hide DirtyInv;
    hide OpInv;
    hide CommitInv;
    Parts(lay, s);
    es := [];
    if steps != [] {
      var m := Apply(lay, s, steps[0]);
      var e := StepSimulates(lay, s, steps[0]);
      var rest := RunRefines(lay, m, steps[1..], r);
      es := [e] + rest;
      assert es[1..] == rest;
      assert Labels(steps[0], e);
      assert forall i :: 0 < i < |es| ==> es[i] == rest[i - 1] && steps[i] == steps[1..][i - 1];
    }
  }

  /** In the specification, a store with nothing pending and no operation
      starting stays as it is. */
  lemma {:induction false} QuietHistory(a: TxStore.Store, es: seq<Event>, z: TxStore.Store)
    requires History(a, es, z) && a.active == {} && a.current == a.durable
    requires forall i :: 0 <= i < |es| ==> !es[i].Begin?
    ensures z == a
    decreases |es|
  {
    if es != [] {
      QuietHistory(After(a, es[0]), es[1..], z);
    }
  }

  /** Power fails at any moment; recovery then runs, itself interrupted by any
      number of further failures. The contents seen afterwards are the durable
      contents of the moment of the first failure. */
  lemma RecoveryRestores(lay: Layout, s: Sys, boot: Tid, steps: seq<Step>, r: Sys)
    requires Inv(lay, s) && Run(lay, Boot(s.disk, boot), steps, r)
    requires forall i :: 0 <= i < |steps| ==> !steps[i].BeginOp?
    ensures lay.DiskOk(s.disk) && lay.DiskOk(r.disk)
    ensures Alpha(lay, r).current == Alpha(lay, s).durable
    ensures Alpha(lay, r).durable == Alpha(lay, s).durable
  {
    hide Inv;
    hide Alpha;
    hide Run;
    hide Boot;
    Parts(lay, s);
    PowerLossKeeps(lay, s, boot);
    var es := RunRefines(lay, Boot(s.disk, boot), steps, r);
    QuietHistory(Alpha(lay, Boot(s.disk, boot)), es, Alpha(lay, r));
  }

  lemma NothingDirty(lay: Layout, s: Sys)
    requires DirtyInv(lay, s) && s.ops == map[] && s.commits == map[]
    ensures s.dirty == {}
  {
  }

  /** Once all operations have ended and no commit is under way, all that they wrote is durable,
      and a new operation need not wait. */
  lemma RestIsDurable(lay: Layout, s: Sys)
    requires Inv(lay, s) && s.ops == map[] && s.commits == map[]
    ensures s.lh == [] && lay.DiskOk(s.disk) && Alpha(lay, s).current == Alpha(lay, s).durable
    ensures forall t :: Enabled(lay, s, BeginOp(t))
  {
    hide Word;
    NothingDirty(lay, s);
    assert s.lh == [] && Pins(s) == [];
    forall b | b in Homes(lay)
      ensures View(lay, s, b) == Recovered(lay, s.disk)[b]
    {
      assert b in s.cache ==> BufInv(s, b);
      RecoveredAt(lay, s.disk, b);
    }
  }

  /** After any run that comes to rest, what its operations wrote survives power loss at that
      moment, and any number of further ones during recovery. */
  lemma EndedSurvives(lay: Layout, s: Sys, steps: seq<Step>, r: Sys, boot: Tid, after: seq<Step>, z: Sys)
    requires Inv(lay, s) && Run(lay, s, steps, r) && r.ops == map[] && r.commits == map[]
    requires Run(lay, Boot(r.disk, boot), after, z) && forall i :: 0 <= i < |after| ==> !after[i].BeginOp?
    ensures lay.DiskOk(r.disk) && lay.DiskOk(z.disk) && Alpha(lay, z).current == Alpha(lay, r).current
  {
    hide Inv;
    hide Alpha;
    hide Run;
    hide Boot;
    var _ := RunRefines(lay, s, steps, r);
    RestIsDurable(lay, r);
    RecoveryRestores(lay, r, boot, after, z);
  }

  /** Between log_write and bunpin a logged block stays in the cache, valid,
      and no bget may recycle its buffer. */
  lemma LoggedStaysCached(lay: Layout, s: Sys, j: nat, st: Step)
    requires Inv(lay, s) && !s.recovering && s.unpinned <= j < |s.lh|
    requires Enabled(lay, s, st) && st.Bget?
    ensures s.lh[j] in s.cache && s.cache[s.lh[j]].valid && s.cache[s.lh[j]].refcnt >= 1
    ensures st.victim != Some(s.lh[j])
  {
    hide CommitInv;
    hide OpInv;
    hide DirtyInv;
    assert s.lh[j] == Pins(s)[j - s.unpinned];
    assert s.lh[j] in Pins(s);
    assert BufInv(s, s.lh[j]);
  }

  /** After a commit every refcnt is again the number of bget callers. */
  lemma RefcntAfterCommit(lay: Layout, s: Sys, b: nat)
    requires Inv(lay, s) && s.lh == [] && b in s.cache
    ensures s.cache[b].refcnt == |s.cache[b].users|
  {
    hide CommitInv;
    hide OpInv;
    hide DirtyInv;
    assert BufInv(s, b);
  }

  /** Blocks whose buffer is pinned by the log or counted by a bget caller. */
  ghost function Busy(s: Sys): (r: set<nat>) {
    set b | b in s.cache && (b in Pins(s) || s.cache[b].users != multiset{})
  }

  /** "bget: no buffers" is where a thread asks for a block that is not cached
      while NBUF blocks are pinned or in use, and nowhere else. */
  lemma BufferLeft(lay: Layout, s: Sys, t: Tid, b: nat, junk: Block)
    requires Inv(lay, s) && MayTouch(lay, s, t, b)
    ensures (exists victim :: Enabled(lay, s, Bget(t, b, victim, junk))) <==> b in s.cache || |Busy(s)| < NBUF
  {
    hide CommitInv;
    hide OpInv;
    hide DirtyInv;
    forall c | c in s.cache
      ensures s.cache[c].refcnt == 0 <==> c !in Busy(s)
    {
      assert BufInv(s, c);
    }
    assert Busy(s) <= s.cache.Keys;
    assert s.cache.Keys == Busy(s) + (s.cache.Keys - Busy(s));
    if b in s.cache || |s.cache| < NBUF {
      assert Enabled(lay, s, Bget(t, b, None, junk));
    } else if |Busy(s)| < NBUF {
      var c :| c in s.cache.Keys - Busy(s);
      assert Enabled(lay, s, Bget(t, b, Some(c), junk));
    }
  }
}
