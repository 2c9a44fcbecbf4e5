/** Operations and commits from call to return: bread, a change, log_write and brelse
    between begin_op and end_op, and then commit(), each by one thread that finds the buffers
    it needs, come to a state that is given here without their steps. */
module LogCalls {
  import opened Base
  import opened Blocks
  import opened LogFormat
  import opened TxStore
  import opened LogMachine
  import opened LogProof
  import opened LogCommitProof
  import opened LogProgress

  /** A run without power loss goes from s to r. */
  ghost predicate Goes(lay: Layout, s: Sys, run: seq<Step>, r: Sys) {
    LogCommitProof.Run(lay, s, run, r) && forall i :: 0 <= i < |run| ==> !IsPowerLoss(run[i])
  }

  /** So that no reader sees a difference. */
  ghost predicate Leads(lay: Layout, s: Sys, run: seq<Step>, r: Sys) {
    && Goes(lay, s, run, r)
    && lay.DiskOk(s.disk) && lay.DiskOk(r.disk) && Alpha(lay, r).current == Alpha(lay, s).current
  }

  lemma {:induction false} GoesTrans(lay: Layout, s: Sys, a: seq<Step>, m: Sys, b: seq<Step>, r: Sys)
    requires Goes(lay, s, a, m) && Goes(lay, m, b, r)
    ensures Goes(lay, s, a + b, r)
    decreases |a|
  {
    hide Enabled;
    hide Apply;
    if a == [] {
      assert a + b == b;
    } else {
      GoesTrans(lay, Apply(lay, s, a[0]), a[1..], m, b, r);
      assert (a + b)[1..] == a[1..] + b;
    }
  }

  lemma GoesOne(lay: Layout, s: Sys, st: Step)
    requires Enabled(lay, s, st) && !IsPowerLoss(st)
    ensures Goes(lay, s, [st], Apply(lay, s, st))
  {
    hide Enabled;
    hide Apply;
    var run := [st];
    assert run[0] == st && run[1..] == [];
    assert LogCommitProof.Run(lay, Apply(lay, s, st), [], Apply(lay, s, st));
  }

  lemma LeadsTrans(lay: Layout, s: Sys, a: seq<Step>, m: Sys, b: seq<Step>, r: Sys)
    requires Leads(lay, s, a, m) && Leads(lay, m, b, r)
    ensures Leads(lay, s, a + b, r)
  {
    hide Goes;
    hide Alpha;
    GoesTrans(lay, s, a, m, b, r);
  }

  lemma LeadsOne(lay: Layout, s: Sys, st: Step)
    requires Inv(lay, s) && Enabled(lay, s, st) && !IsPowerLoss(st) && !st.Modify?
    ensures Leads(lay, s, [st], Apply(lay, s, st)) && Inv(lay, Apply(lay, s, st))
  {
    hide Enabled;
    hide Apply;
    hide Inv;
    hide Alpha;
    hide Goes;
    var e := StepSimulates(lay, s, st);
    GoesOne(lay, s, st);
    Parts(lay, s);
    Parts(lay, Apply(lay, s, st));
  }

  /** The buffers of other blocks are as they were, but for one that no one used. */
  ghost predicate OthersKept(s: Sys, r: Sys, b: nat) {
    && (forall c :: c in r.cache && c != b ==> c in s.cache && r.cache[c] == s.cache[c])
    && (forall c :: c in s.cache && c != b && s.cache[c].refcnt > 0 ==> c in r.cache)
  }

  ghost function UsersOf(s: Sys, b: nat): (r: multiset<Tid>) {
    if b in s.cache then s.cache[b].users else multiset{}
  }

  /** bread up to the disk. */
  lemma Got(lay: Layout, s: Sys, t: Tid, b: nat) returns (run: seq<Step>, r: Sys)
    requires Inv(lay, s) && MayTouch(lay, s, t, b) && (b in s.cache ==> s.cache[b].holder == None)
    requires b in s.cache || |Busy(s)| < NBUF
    ensures Leads(lay, s, run, r) && Inv(lay, r) && r == s.(cache := r.cache) && OthersKept(s, r, b)
    ensures b in r.cache && r.cache[b].holder == Some(t) && r.cache[b].users == UsersOf(s, b) + multiset{t}
    ensures if b in s.cache then r.cache[b].valid == s.cache[b].valid && r.cache[b].data == s.cache[b].data
            else !r.cache[b].valid
  {
    hide Leads;
    hide Inv;
    hide Busy;
    hide OthersKept;
    Fitting(lay, s);
    var junk := s.disk[b];
    BufferLeft(lay, s, t, b, junk);
    var victim :| Enabled(lay, s, Bget(t, b, victim, junk));
    var m := GotSteps(lay, s, t, b, victim, junk);
    hide Enabled;
    hide Apply;
    LeadsOne(lay, s, Bget(t, b, victim, junk));
    r := Apply(lay, m, Lock(t, b));
    LeadsOne(lay, m, Lock(t, b));
    run := [Bget(t, b, victim, junk)] + [Lock(t, b)];
    LeadsTrans(lay, s, [Bget(t, b, victim, junk)], m, [Lock(t, b)], r);
  }

  lemma GotSteps(lay: Layout, s: Sys, t: Tid, b: nat, victim: Option<nat>, junk: Block) returns (m: Sys)
    requires Enabled(lay, s, Bget(t, b, victim, junk)) && (b in s.cache ==> s.cache[b].holder == None)
    ensures m == Apply(lay, s, Bget(t, b, victim, junk)) && Enabled(lay, m, Lock(t, b))
    ensures var r := Apply(lay, m, Lock(t, b));
            && r == s.(cache := r.cache) && OthersKept(s, r, b)
            && b in r.cache && r.cache[b].holder == Some(t) && r.cache[b].users == UsersOf(s, b) + multiset{t}
            && if b in s.cache then r.cache[b].valid == s.cache[b].valid && r.cache[b].data == s.cache[b].data
               else !r.cache[b].valid
  {
    m := Apply(lay, s, Bget(t, b, victim, junk));
  }

  lemma Fitting(lay: Layout, s: Sys)
    requires Inv(lay, s)
    ensures lay.Fits(s.disk)
  {
    hide CommitInv;
    hide OpInv;
    hide DirtyInv;
    hide BufInv;
  }

  /** bread. */
  lemma Read(lay: Layout, s: Sys, t: Tid, b: nat) returns (run: seq<Step>, r: Sys)
    requires Inv(lay, s) && MayTouch(lay, s, t, b) && (b in s.cache ==> s.cache[b].holder == None)
    requires b in s.cache || |Busy(s)| < NBUF
    ensures Leads(lay, s, run, r) && Inv(lay, r) && r == s.(cache := r.cache) && OthersKept(s, r, b)
    ensures Holds(r, t, b) && r.cache[b].users == UsersOf(s, b) + multiset{t} && b < |s.disk|
    ensures r.cache[b].data == if b in s.cache && s.cache[b].valid then s.cache[b].data else s.disk[b]
  {
    hide Leads;
    hide Inv;
    hide Busy;
    hide OthersKept;
    Fitting(lay, s);
    run, r := Got(lay, s, t, b);
    if !r.cache[b].valid {
      var m := r;
      r := Apply(lay, m, Fill(t, b));
      LeadsOne(lay, m, Fill(t, b));
      LeadsTrans(lay, s, run, m, [Fill(t, b)], r);
      run := run + [Fill(t, b)];
      FilledKept(s, m, r, b);
    }
  }

  lemma FilledKept(s: Sys, m: Sys, r: Sys, b: nat)
    requires OthersKept(s, m, b) && b in m.cache && b in r.cache && r.cache == m.cache[b := r.cache[b]]
    ensures OthersKept(s, r, b)
  {
  }

  ghost function Dropped(f: Buf, t: Tid): (r: Buf)
    requires f.refcnt > 0
  {
    f.(holder := None, users := f.users - multiset{t}, refcnt := f.refcnt - 1)
  }

  lemma Drops(lay: Layout, s: Sys, t: Tid, b: nat) returns (m: Sys)
    requires lay.Fits(s.disk) && b in s.cache && s.cache[b].holder == Some(t) && b !in s.dirty
    requires t in s.cache[b].users && s.cache[b].refcnt > 0
    ensures Enabled(lay, s, Unlock(t, b)) && m == Apply(lay, s, Unlock(t, b)) && Enabled(lay, m, Unref(t, b))
    ensures Apply(lay, m, Unref(t, b)) == s.(cache := s.cache[b := Dropped(s.cache[b], t)])
  {
    m := Apply(lay, s, Unlock(t, b));
    assert Apply(lay, m, Unref(t, b)).cache == s.cache[b := Dropped(s.cache[b], t)];
  }

  /** brelse. */
  lemma Released(lay: Layout, s: Sys, t: Tid, b: nat) returns (run: seq<Step>, r: Sys)
    requires Inv(lay, s) && b in s.cache && s.cache[b].holder == Some(t) && b !in s.dirty
    ensures Leads(lay, s, run, r) && Inv(lay, r) && t in s.cache[b].users && s.cache[b].refcnt > 0
    ensures r == s.(cache := s.cache[b := Dropped(s.cache[b], t)])
  {
    hide Leads;
    hide Inv;
    hide Enabled;
    hide Apply;
    hide Dropped;
    Counted(lay, s, b);
    Fitting(lay, s);
    var m := Drops(lay, s, t, b);
    LeadsOne(lay, s, Unlock(t, b));
    LeadsOne(lay, m, Unref(t, b));
    r := Apply(lay, m, Unref(t, b));
    run := [Unlock(t, b)] + [Unref(t, b)];
    LeadsTrans(lay, s, [Unlock(t, b)], m, [Unref(t, b)], r);
  }

  lemma Counted(lay: Layout, s: Sys, b: nat)
    requires Inv(lay, s) && b in s.cache && s.cache[b].holder.Some?
    ensures s.cache[b].holder.value in s.cache[b].users && s.cache[b].refcnt > 0
  {
    hide CommitInv;
    hide OpInv;
    hide DirtyInv;
    assert BufInv(s, b);
  }

  // ---------- commit ----------

  /** Thread t uses exactly the buffers of the blocks in `held`, and no one else any. */
  ghost predicate Uses(s: Sys, t: Tid, held: set<nat>) {
    && (forall b :: b in held ==> Holds(s, t, b) && s.cache[b].users == multiset{t})
    && (forall b :: b in s.cache && b !in held ==> s.cache[b].users == multiset{} && s.cache[b].holder == None)
  }

  lemma {:induction false} SetOf(a: seq<nat>, x: set<nat>)
    requires forall b :: b in x ==> b in a
    ensures |x| <= |a|
    decreases |a|
  {
    if a == [] {
      assert x == {};
    } else {
      var z := a[|a| - 1];
      forall b | b in x - {z}
        ensures b in a[..|a| - 1]
      {
      }
      SetOf(a[..|a| - 1], x - {z});
      assert x <= x - {z} + {z};
      SubsetCount(x, x - {z} + {z});
    }
  }

  /** Only pins and the buffers that t uses are out of reach for bget. */
  lemma BusyIs(s: Sys, t: Tid, held: set<nat>)
    requires Uses(s, t, held)
    ensures |Busy(s)| <= |Pins(s)| + |held|
  {
    hide Pins;
    var x := set b | b in Busy(s) && b in Pins(s);
    SetOf(Pins(s), x);
    assert Busy(s) <= x + held;
    SubsetCount(Busy(s), x + held);
    assert |x + held| <= |x| + |held| by {
      assert x + held == x + (held - x);
      SubsetCount(held - x, held);
    }
  }

  /** t takes one more. */
  lemma Takes(lay: Layout, s: Sys, t: Tid, b: nat, held: set<nat>) returns (run: seq<Step>, r: Sys)
    requires Inv(lay, s) && MayTouch(lay, s, t, b) && Uses(s, t, held) && b !in held
    requires b in s.cache || |Pins(s)| + |held| < NBUF
    ensures Leads(lay, s, run, r) && Inv(lay, r) && r == s.(cache := r.cache) && Uses(r, t, held + {b})
  {
    hide Leads;
    hide Inv;
    hide Busy;
    hide Pins;
    BusyIs(s, t, held);
    run, r := Read(lay, s, t, b);
    forall c | c in held
      ensures c in r.cache
    {
      Counted(lay, s, c);
    }
  }

  /** t gives one back. */
  lemma Gives(lay: Layout, s: Sys, t: Tid, b: nat, held: set<nat>) returns (run: seq<Step>, r: Sys)
    requires Inv(lay, s) && Uses(s, t, held) && b in held && b !in s.dirty
    ensures Leads(lay, s, run, r) && Inv(lay, r) && r == s.(cache := r.cache) && Uses(r, t, held - {b})
  {
    hide Leads;
    hide Inv;
    run, r := Released(lay, s, t, b);
    assert multiset{t} - multiset{t} == multiset{};
  }

  /** Every buffer is used as it was. */
  ghost predicate SameUse(c: map<nat, Buf>, d: map<nat, Buf>) {
    && d.Keys == c.Keys
    && forall b :: b in c ==> d[b].users == c[b].users && d[b].holder == c[b].holder && d[b].valid == c[b].valid
  }

  lemma OneChanged(c: map<nat, Buf>, b: nat, v: Block, n: nat)
    requires b in c
    ensures SameUse(c, c[b := c[b].(data := v)]) && SameUse(c, c[b := c[b].(refcnt := n)])
  {
  }

  lemma NoneChanged(c: map<nat, Buf>)
    ensures SameUse(c, c)
  {
  }

  lemma FillUse(lay: Layout, s: Sys, t: Tid)
    requires lay.Fits(s.disk) && t in s.commits && AdvanceEnabled(lay, s, t)
    requires s.commits[t].LogCopy? || (s.commits[t].HomeCopy? && s.commits[t].i < |s.lh|) || s.commits[t].ClearFill?
    ensures SameUse(s.cache, AdvanceStep(lay, s, t).cache)
  {
    hide Word;
    hide HeaderOf;
    hide FillHeader;
    hide SameUse;
    var pc := s.commits[t];
    if pc.LogCopy? && pc.i < |s.lh| {
      OneChanged(s.cache, lay.start + 1 + pc.i, s.cache[s.lh[pc.i]].data, 0);
    } else if pc.LogCopy? {
      OneChanged(s.cache, lay.start, FillHeader(s.cache[lay.start].data, s.lh), 0);
    } else if pc.HomeCopy? {
      OneChanged(s.cache, s.lh[pc.i], s.cache[lay.start + 1 + pc.i].data, 0);
    } else {
      OneChanged(s.cache, lay.start, FillHeader(s.cache[lay.start].data, []), 0);
    }
  }

  lemma PutUse(lay: Layout, s: Sys, t: Tid)
    requires lay.Fits(s.disk) && t in s.commits && AdvanceEnabled(lay, s, t)
    requires !s.commits[t].LogCopy? && !(s.commits[t].HomeCopy? && s.commits[t].i < |s.lh|) && !s.commits[t].ClearFill?
    ensures SameUse(s.cache, AdvanceStep(lay, s, t).cache)
  {
    hide Word;
    hide HeaderOf;
    hide FillHeader;
    hide SameUse;
    var pc := s.commits[t];
    NoneChanged(s.cache);
    if pc.HomePut? {
      OneChanged(s.cache, s.lh[pc.i], s.cache[s.lh[pc.i]].data, s.cache[s.lh[pc.i]].refcnt - 1);
    }
  }

  lemma SameUses(s: Sys, r: Sys, t: Tid, held: set<nat>)
    requires SameUse(s.cache, r.cache) && Uses(s, t, held)
    ensures Uses(r, t, held)
  {
  }

  /** The log thread moves; no one's use of a buffer changes. */
  lemma Advances(lay: Layout, s: Sys, t: Tid, held: set<nat>) returns (r: Sys)
    requires Inv(lay, s) && Enabled(lay, s, Advance(t)) && Uses(s, t, held)
    ensures r == Apply(lay, s, Advance(t)) && Leads(lay, s, [Advance(t)], r) && Inv(lay, r) && Uses(r, t, held)
  {
    hide Leads;
    hide Inv;
    hide AdvanceEnabled;
    hide AdvanceStep;
    hide Uses;
    hide SameUse;
    r := Apply(lay, s, Advance(t));
    LeadsOne(lay, s, Advance(t));
    var pc := s.commits[t];
    if pc.LogCopy? || (pc.HomeCopy? && pc.i < |s.lh|) || pc.ClearFill? {
      FillUse(lay, s, t);
    } else {
      PutUse(lay, s, t);
    }
    SameUses(s, r, t, held);
  }

  /** Between two blocks the log thread has nothing filled and not written. */
  predicate Between(pc: Pc) {
    pc.LogCopy? || pc.HomeCopy? || pc.ClearFill? || pc.Finished? || pc.ReadHead?
  }

  lemma PcFacts(lay: Layout, s: Sys, t: Tid)
    requires t in s.commits && lay.DiskOk(s.disk) && lay.HeaderOk(s.lh) && PcInv(lay, s, t)
    ensures Between(s.commits[t]) ==> s.dirty == {}
    ensures Uses(s, t, {}) ==> Between(s.commits[t])
    ensures s.commits[t].LogCopy? ==> !s.recovering && s.unpinned == 0
    ensures s.commits[t].HomeCopy? && !s.recovering ==> s.unpinned == s.commits[t].i
    ensures s.commits[t] == ReadHead ==> s.recovering
  {
    hide HeaderOf;
    hide Word;
    hide Installed;
    hide Logged;
    hide Layout.HeaderOk;
    hide Layout.DiskOk;
  }

  lemma Clean(lay: Layout, s: Sys, t: Tid)
    requires Inv(lay, s) && t in s.commits
    ensures Between(s.commits[t]) ==> s.dirty == {}
    ensures Uses(s, t, {}) ==> Between(s.commits[t])
    ensures lay.DiskOk(s.disk) && lay.HeaderOk(s.lh) && s.unpinned <= |s.lh|
    ensures s.commits[t].LogCopy? ==> !s.recovering && s.unpinned == 0
    ensures s.commits[t].HomeCopy? && !s.recovering ==> s.unpinned == s.commits[t].i
    ensures s.commits[t] == ReadHead ==> s.recovering
  {
    Parts(lay, s);
    hide *;
    LogThreadAlone(lay, s, t);
    PcFacts(lay, s, t);
  }

  /** A pinned block is cached. */
  lemma PinCached(lay: Layout, s: Sys, i: nat)
    requires Inv(lay, s) && !s.recovering && s.unpinned <= i < |s.lh|
    ensures s.lh[i] in s.cache
  {
    hide CommitInv;
    hide OpInv;
    hide DirtyInv;
    hide BufInv;
    assert Pins(s)[i - s.unpinned] == s.lh[i];
    assert s.lh[i] in Pins(s);
  }

  /** write_log or install_trans of block i: the log block and the home block are read, one
      is copied to the other and written, and both are released. */
  lemma CopyTurn(lay: Layout, s: Sys, t: Tid, i: nat) returns (run: seq<Step>, r: Sys)
    requires Inv(lay, s) && t in s.commits && Uses(s, t, {}) && |Pins(s)| < NBUF && i < |s.lh|
    requires s.commits[t] == LogCopy(i) || s.commits[t] == HomeCopy(i)
    ensures Leads(lay, s, run, r) && Inv(lay, r) && Uses(r, t, {}) && t in r.commits
    ensures Left(r.commits[t], |r.lh|) < Left(s.commits[t], |s.lh|) && |Pins(r)| < NBUF
  {
    hide Leads;
    hide Inv;
    hide Uses;
    hide Pins;
    Clean(lay, s, t);
    var b, c := lay.start + 1 + i, s.lh[i];
    var a1, m1 := Takes(lay, s, t, b, {});
    SamePins(s, m1);
    if s.recovering {
      NoPins(s);
    } else {
      PinCached(lay, m1, i);
    }
    var a2, m2 := Takes(lay, m1, t, c, {b});
    SamePins(s, m2);
    HoldsBoth(m2, t, b, c);
    CanFill(lay, m2, t, i);
    Nearer(lay, m2, t);
    var m3 := Advances(lay, m2, t, {b} + {c});
    HoldsBoth(m3, t, b, c);
    Counted(lay, m3, c);
    Fitting(lay, m3);
    CanPut(lay, m3, t, i);
    Nearer(lay, m3, t);
    var m4 := Advances(lay, m3, t, {b} + {c});
    PutDone(lay, m2, m3, m4, t, i);
    Clean(lay, m4, t);
    var a5, m5 := Gives(lay, m4, t, b, {b} + {c});
    assert {b} + {c} - {b} == {c};
    var a6;
    a6, r := Gives(lay, m5, t, c, {c});
    assert {c} - {c} == {};
    SamePins(m4, r);
    LeadsTrans(lay, s, a1, m1, a2, m2);
    LeadsTrans(lay, s, a1 + a2, m2, [Advance(t)], m3);
    LeadsTrans(lay, s, a1 + a2 + [Advance(t)], m3, [Advance(t)], m4);
    LeadsTrans(lay, s, a1 + a2 + [Advance(t)] + [Advance(t)], m4, a5, m5);
    run := a1 + a2 + [Advance(t)] + [Advance(t)] + a5 + a6;
    LeadsTrans(lay, s, a1 + a2 + [Advance(t)] + [Advance(t)] + a5, m5, a6, r);
  }

  lemma NoPins(s: Sys)
    requires s.recovering
    ensures Pins(s) == []
  {
  }

  lemma CanFill(lay: Layout, s: Sys, t: Tid, i: nat)
    requires lay.Fits(s.disk) && t in s.commits && (s.commits[t] == LogCopy(i) || s.commits[t] == HomeCopy(i))
    requires i < |s.lh| && i < LOGBLOCKS && Holds(s, t, lay.start + 1 + i) && Holds(s, t, s.lh[i])
    ensures Enabled(lay, s, Advance(t))
    ensures var r := Apply(lay, s, Advance(t));
            && r.lh == s.lh && r.unpinned == s.unpinned && r.recovering == s.recovering
            && t in r.commits && r.commits[t] == if s.commits[t].LogCopy? then LogPut(i) else HomePut(i)
  {
    hide Holds;
    hide Word;
    assert AdvanceEnabled(lay, s, t);
  }

  lemma CanPut(lay: Layout, s: Sys, t: Tid, i: nat)
    requires lay.Fits(s.disk) && t in s.commits && (s.commits[t] == LogPut(i) || s.commits[t] == HomePut(i))
    requires i < |s.lh| && i < LOGBLOCKS && Holds(s, t, lay.start + 1 + i) && Holds(s, t, s.lh[i])
    requires s.lh[i] < lay.size && s.cache[s.lh[i]].refcnt > 0
    ensures Enabled(lay, s, Advance(t))
  {
    hide Holds;
    hide Word;
    assert AdvanceEnabled(lay, s, t);
  }

  lemma HoldsBoth(s: Sys, t: Tid, b: nat, c: nat)
    requires Uses(s, t, {b} + {c})
    ensures Holds(s, t, b) && Holds(s, t, c)
  {
    assert b in {b} + {c} && c in {b} + {c};
  }

  lemma PutDone(lay: Layout, s: Sys, m: Sys, r: Sys, t: Tid, i: nat)
    requires m.lh == s.lh && m.unpinned == s.unpinned && m.recovering == s.recovering && i < |s.lh|
    requires |Pins(s)| < NBUF && s.unpinned <= |s.lh|
    requires t in m.commits && (m.commits[t] == LogPut(i) || m.commits[t] == HomePut(i))
    requires Enabled(lay, m, Advance(t)) && r == Apply(lay, m, Advance(t))
    ensures t in r.commits && Between(r.commits[t]) && |Pins(r)| < NBUF
  {
    hide Word;
  }

  lemma CanFillHead(lay: Layout, s: Sys, t: Tid)
    requires lay.Fits(s.disk) && lay.HeaderOk(s.lh) && t in s.commits && Holds(s, t, lay.start)
    requires s.commits[t] == LogCopy(|s.lh|) || s.commits[t] == ClearFill
    ensures Enabled(lay, s, Advance(t))
    ensures var r := Apply(lay, s, Advance(t));
            && r.lh == s.lh && r.unpinned == s.unpinned && r.recovering == s.recovering
            && t in r.commits && r.commits[t] == if s.commits[t].LogCopy? then HeadPut else ClearPut
  {
    hide Holds;
    hide Word;
    hide Layout.HeaderOk;
    assert AdvanceEnabled(lay, s, t);
  }

  lemma CanPutHead(lay: Layout, s: Sys, t: Tid)
    requires lay.Fits(s.disk) && t in s.commits && Holds(s, t, lay.start)
    requires s.commits[t] == HeadPut || s.commits[t] == ClearPut
    ensures Enabled(lay, s, Advance(t))
    ensures var r := Apply(lay, s, Advance(t));
            && r.lh == s.lh && r.unpinned == s.unpinned && r.recovering == s.recovering
            && t in r.commits && Between(r.commits[t])
  {
    assert AdvanceEnabled(lay, s, t);
  }

  /** write_head, of the full header or of the empty one. */
  lemma HeadTurn(lay: Layout, s: Sys, t: Tid) returns (run: seq<Step>, r: Sys)
    requires Inv(lay, s) && t in s.commits && Uses(s, t, {}) && |Pins(s)| < NBUF
    requires s.commits[t] == LogCopy(|s.lh|) || s.commits[t] == ClearFill
    ensures Leads(lay, s, run, r) && Inv(lay, r) && Uses(r, t, {}) && t in r.commits
    ensures Left(r.commits[t], |r.lh|) < Left(s.commits[t], |s.lh|) && |Pins(r)| < NBUF
  {
    hide Leads;
    hide Inv;
    hide Uses;
    hide Pins;
    Clean(lay, s, t);
    var b := lay.start;
    var a1, m1 := Takes(lay, s, t, b, {});
    assert {} + {b} == {b};
    HoldsOne(m1, t, b);
    CanFillHead(lay, m1, t);
    Nearer(lay, m1, t);
    var m2 := Advances(lay, m1, t, {b});
    HoldsOne(m2, t, b);
    Fitting(lay, m2);
    CanPutHead(lay, m2, t);
    Nearer(lay, m2, t);
    var m3 := Advances(lay, m2, t, {b});
    Clean(lay, m3, t);
    var a4;
    a4, r := Gives(lay, m3, t, b, {b});
    assert {b} - {b} == {};
    SamePins(s, r);
    LeadsTrans(lay, s, a1, m1, [Advance(t)], m2);
    LeadsTrans(lay, s, a1 + [Advance(t)], m2, [Advance(t)], m3);
    run := a1 + [Advance(t)] + [Advance(t)] + a4;
    LeadsTrans(lay, s, a1 + [Advance(t)] + [Advance(t)], m3, a4, r);
  }

  lemma HoldsOne(s: Sys, t: Tid, b: nat)
    requires Uses(s, t, {b})
    ensures Holds(s, t, b)
  {
  }

  lemma CanReadHead(lay: Layout, s: Sys, t: Tid)
    requires Inv(lay, s) && t in s.commits && s.commits[t] == ReadHead && Holds(s, t, lay.start)
    ensures Enabled(lay, s, Advance(t))
    ensures var r := Apply(lay, s, Advance(t)); r.recovering && t in r.commits && r.commits[t] == HomeCopy(0)
  {
    Clean(lay, s, t);
    NoPins(s);
    hide CommitInv;
    hide OpInv;
    hide DirtyInv;
    hide Pins;
    hide Word;
    assert BufInv(s, lay.start);
    assert AdvanceEnabled(lay, s, t);
  }

  /** read_head. */
  lemma ReadTurn(lay: Layout, s: Sys, t: Tid) returns (run: seq<Step>, r: Sys)
    requires Inv(lay, s) && t in s.commits && Uses(s, t, {}) && s.commits[t] == ReadHead
    ensures Leads(lay, s, run, r) && Inv(lay, r) && Uses(r, t, {}) && t in r.commits
    ensures Left(r.commits[t], |r.lh|) < Left(s.commits[t], |s.lh|) && |Pins(r)| < NBUF
  {
    hide Leads;
    hide Inv;
    hide Uses;
    hide Pins;
    Clean(lay, s, t);
    NoPins(s);
    var b := lay.start;
    var a1, m1 := Takes(lay, s, t, b, {});
    assert {} + {b} == {b};
    HoldsOne(m1, t, b);
    CanReadHead(lay, m1, t);
    Nearer(lay, m1, t);
    var m2 := Advances(lay, m1, t, {b});
    Clean(lay, m2, t);
    var a3;
    a3, r := Gives(lay, m2, t, b, {b});
    assert {b} - {b} == {};
    NoPins(r);
    LeadsTrans(lay, s, a1, m1, [Advance(t)], m2);
    run := a1 + [Advance(t)] + a3;
    LeadsTrans(lay, s, a1 + [Advance(t)], m2, a3, r);
  }

  /** The steps for which no buffer is needed. */
  lemma PlainTurn(lay: Layout, s: Sys, t: Tid) returns (r: Sys)
    requires Inv(lay, s) && t in s.commits && Uses(s, t, {})
    requires s.commits[t] == HomeCopy(|s.lh|) || s.commits[t] == Finished
    ensures Leads(lay, s, [Advance(t)], r) && Inv(lay, r) && Uses(r, t, {})
    ensures t in r.commits ==> Left(r.commits[t], |r.lh|) < Left(s.commits[t], |s.lh|) && |Pins(r)| < NBUF
    ensures t !in r.commits ==> AtRest(r)
  {
    hide Leads;
    hide Inv;
    hide Uses;
    Fitting(lay, s);
    assert AdvanceEnabled(lay, s, t);
    r := Advances(lay, s, t, {});
    Nearer(lay, s, t);
  }

  /** One turn of the log thread, with no one else using a buffer. */
  lemma Turn(lay: Layout, s: Sys, t: Tid) returns (run: seq<Step>, r: Sys)
    requires Inv(lay, s) && t in s.commits && Uses(s, t, {}) && |Pins(s)| < NBUF
    ensures Leads(lay, s, run, r) && Inv(lay, r) && Uses(r, t, {})
    ensures t in r.commits ==> Left(r.commits[t], |r.lh|) < Left(s.commits[t], |s.lh|) && |Pins(r)| < NBUF
    ensures t !in r.commits ==> AtRest(r)
  {
    hide Leads;
    hide Inv;
    hide Uses;
    hide Pins;
    Clean(lay, s, t);
    AtMost(lay, s, t);
    match s.commits[t]
    case LogCopy(i) =>
      if i < |s.lh| {
        run, r := CopyTurn(lay, s, t, i);
      } else {
        run, r := HeadTurn(lay, s, t);
      }
    case HomeCopy(i) =>
      if i < |s.lh| {
        run, r := CopyTurn(lay, s, t, i);
      } else {
        r := PlainTurn(lay, s, t);
        run := [Advance(t)];
      }
    case ClearFill => run, r := HeadTurn(lay, s, t);
    case ReadHead => run, r := ReadTurn(lay, s, t);
    case _ =>
      r := PlainTurn(lay, s, t);
      run := [Advance(t)];
  }

  lemma AtMost(lay: Layout, s: Sys, t: Tid)
    requires Inv(lay, s) && t in s.commits
    ensures InRange(s.commits[t], |s.lh|)
  {
    Parts(lay, s);
    hide *;
    LogThreadAlone(lay, s, t);
    PcRange(lay, s, t);
  }

  /** The log thread, alone with the cache, comes to the end of its commit or recovery if it
      finds a buffer for the log block: if fewer than NBUF blocks are pinned. What readers
      saw is durable then. */
  lemma {:induction false} CommitRuns(lay: Layout, s: Sys, t: Tid) returns (run: seq<Step>, r: Sys)
    requires Inv(lay, s) && t in s.commits && Uses(s, t, {}) && |Pins(s)| < NBUF
    ensures Leads(lay, s, run, r) && Inv(lay, r) && Uses(r, t, {}) && AtRest(r)
    ensures lay.DiskOk(s.disk) && lay.DiskOk(r.disk)
    ensures Alpha(lay, r).current == Alpha(lay, s).current && Alpha(lay, r).durable == Alpha(lay, s).current
    decreases Left(s.commits[t], |s.lh|)
  {
    hide Inv;
    hide Uses;
    hide Pins;
    hide Alpha;
    hide AtRest;
    hide Goes;
    LeftIs(lay, s, t);
    run, r := Turn(lay, s, t);
    if t in r.commits {
      LeftIs(lay, r, t);
      var m, rest := r, [];
      rest, r := CommitRuns(lay, m, t);
      LeadsTrans(lay, s, run, m, rest, r);
      run := run + rest;
    } else {
      RestDurable(lay, r);
    }
  }

  lemma RestDurable(lay: Layout, s: Sys)
    requires Inv(lay, s) && AtRest(s)
    ensures lay.DiskOk(s.disk) && Alpha(lay, s).current == Alpha(lay, s).durable
  {
    hide Inv;
    hide Alpha;
    RestIsDurable(lay, s);
  }

  // ---------- an operation ----------

  /** begin_op and bread. */
  lemma OpReads(lay: Layout, s: Sys, t: Tid, b: nat) returns (run: seq<Step>, r: Sys)
    requires Inv(lay, s) && Enabled(lay, s, BeginOp(t)) && lay.Home(b) && (b in s.cache ==> s.cache[b].holder == None)
    requires b in s.cache || |Busy(s)| < NBUF
    ensures Leads(lay, s, run, r) && Inv(lay, r) && OthersKept(s, r, b)
    ensures r == s.(cache := r.cache, outstanding := s.outstanding + 1, ops := s.ops[t := {}])
    ensures Holds(r, t, b) && r.cache[b].users == UsersOf(s, b) + multiset{t}
  {
    hide Leads;
    hide Inv;
    hide OthersKept;
    var m := Apply(lay, s, BeginOp(t));
    assert Busy(m) == Busy(s);
    hide Busy;
    LeadsOne(lay, s, BeginOp(t));
    run, r := Read(lay, m, t, b);
    StillKept(s, m, r, b);
    LeadsTrans(lay, s, [BeginOp(t)], m, run, r);
    run := [BeginOp(t)] + run;
  }

  lemma StillKept(s: Sys, m: Sys, r: Sys, b: nat)
    requires m.cache == s.cache && OthersKept(m, r, b)
    ensures OthersKept(s, r, b)
  {
  }

  /** A change. */
  lemma OpModifies(lay: Layout, s: Sys, t: Tid, b: nat, v: Block) returns (r: Sys)
    requires Inv(lay, s) && t in s.ops && lay.Home(b) && Holds(s, t, b)
    ensures Goes(lay, s, [Modify(t, b, v)], r) && Inv(lay, r) && r == Memmove(s, b, v)
    ensures lay.DiskOk(s.disk) && lay.DiskOk(r.disk) && Alpha(lay, r).current == Alpha(lay, s).current[b := v]
  {
    hide Inv;
    hide Goes;
    hide Alpha;
    Fitting(lay, s);
    r := Apply(lay, s, Modify(t, b, v));
    var e := StepSimulates(lay, s, Modify(t, b, v));
    GoesOne(lay, s, Modify(t, b, v));
    Parts(lay, s);
    Parts(lay, r);
  }

  /** log_write. */
  lemma OpLogs(lay: Layout, s: Sys, t: Tid, b: nat) returns (r: Sys)
    requires Inv(lay, s) && t in s.ops && lay.Home(b) && Holds(s, t, b) && |s.ops[t]| < MAXOPBLOCKS
    ensures Leads(lay, s, [LogWrite(t, b)], r) && Inv(lay, r)
    ensures r == s.(cache := r.cache, lh := Absorb(s.lh, b), dirty := s.dirty - {b}, ops := s.ops[t := s.ops[t] + {b}])
    ensures OthersKept(s, r, b) && b in r.cache && r.cache[b].holder == Some(t) && r.cache[b].users == s.cache[b].users
  {
    hide Inv;
    hide Leads;
    hide Absorb;
    Fitting(lay, s);
    r := Apply(lay, s, LogWrite(t, b));
    LeadsOne(lay, s, LogWrite(t, b));
    Sound(lay, r);
  }

  lemma Sound(lay: Layout, s: Sys)
    requires Inv(lay, s)
    ensures !s.panicked
  {
  }

  /** end_op. */
  lemma OpEnds(lay: Layout, s: Sys, t: Tid) returns (r: Sys)
    requires Inv(lay, s) && t in s.ops && forall b :: b in s.dirty ==> b in s.cache && s.cache[b].holder != Some(t)
    ensures Leads(lay, s, [EndOp(t)], r) && Inv(lay, r) && r.cache == s.cache && r.lh == s.lh && r.ops == s.ops - {t}
    ensures if s.ops.Keys == {t} && s.lh != [] then r.commits == map[t := LogCopy(0)]
            else s.ops.Keys != {t} ==> r.commits == map[]
    ensures !r.recovering && r.unpinned == 0
  {
    hide Leads;
    Parts(lay, s);
    NoCommitInOp(lay, s);
    Outstanding(s);
    hide Inv;
    hide OpInv;
    hide CommitInv;
    hide CacheInv;
    hide DirtyInv;
    r := Apply(lay, s, EndOp(t));
    LeadsOne(lay, s, EndOp(t));
    assert |s.ops| == |s.ops.Keys|;
    if |s.ops| == 1 {
      OneKey(s.ops.Keys, t);
    }
  }

  lemma OneKey(x: set<Tid>, t: Tid)
    requires |x| == 1 && t in x
    ensures x == {t}
  {
    assert |x - {t}| == 0;
  }

  /** The change, its log_write and brelse. */
  lemma OpWrites(lay: Layout, s: Sys, t: Tid, b: nat, v: Block) returns (run: seq<Step>, r: Sys)
    requires Inv(lay, s) && t in s.ops && lay.Home(b) && Holds(s, t, b) && s.ops[t] == {}
    ensures Goes(lay, s, run, r) && Inv(lay, r) && OthersKept(s, r, b)
    ensures lay.DiskOk(s.disk) && lay.DiskOk(r.disk) && Alpha(lay, r).current == Alpha(lay, s).current[b := v]
    ensures r == s.(cache := r.cache, lh := Absorb(s.lh, b), dirty := s.dirty - {b}, ops := s.ops[t := {b}])
    ensures b in r.cache && r.cache[b].holder == None && r.cache[b].users == s.cache[b].users - multiset{t}
  {
    hide Inv;
    hide Goes;
    hide Alpha;
    hide Absorb;
    var m1 := OpModifies(lay, s, t, b, v);
    var m2 := OpLogs(lay, m1, t, b);
    var a3;
    a3, r := Released(lay, m2, t, b);
    GoesTrans(lay, s, [Modify(t, b, v)], m1, [LogWrite(t, b)], m2);
    GoesTrans(lay, s, [Modify(t, b, v)] + [LogWrite(t, b)], m2, a3, r);
    run := [Modify(t, b, v)] + [LogWrite(t, b)] + a3;
    assert {} + {b} == {b};
  }

  /** Blocks that are changed and not logged are in other threads' hands. */
  lemma NotMine(lay: Layout, s: Sys, t: Tid, r: Sys, b: nat)
    requires Inv(lay, s) && t !in s.ops && t !in s.commits && OthersKept(s, r, b) && r.dirty == s.dirty - {b}
    ensures forall c :: c in r.dirty ==> c in r.cache && r.cache[c].holder != Some(t)
  {
    forall c | c in r.dirty
      ensures c in r.cache && r.cache[c].holder != Some(t)
    {
      Counted(lay, s, c);
    }
  }

  lemma KeptTrans(s: Sys, m: Sys, r: Sys, b: nat)
    requires OthersKept(s, m, b) && OthersKept(m, r, b)
    ensures OthersKept(s, r, b)
  {
  }

  /** An operation that writes one block: readers see the change, the block is in the log, the
      operation is over and the buffer is given back; if it was the only one, a commit has begun. */
  lemma OpRuns(lay: Layout, s: Sys, t: Tid, b: nat, v: Block) returns (run: seq<Step>, r: Sys)
    requires Inv(lay, s) && Enabled(lay, s, BeginOp(t)) && lay.Home(b) && (b in s.cache ==> s.cache[b].holder == None)
    requires b in s.cache || |Busy(s)| < NBUF
    ensures Goes(lay, s, run, r) && Inv(lay, r) && OthersKept(s, r, b)
    ensures lay.DiskOk(s.disk) && lay.DiskOk(r.disk) && Alpha(lay, r).current == Alpha(lay, s).current[b := v]
    ensures r.ops == s.ops && r.lh == Absorb(s.lh, b) && !r.recovering && r.unpinned == 0
    ensures b in r.cache && r.cache[b].holder == None && r.cache[b].users == UsersOf(s, b)
    ensures if s.ops == map[] then r.commits == map[t := LogCopy(0)] else r.commits == map[]
  {
    hide Inv;
    hide Goes;
    hide Alpha;
    hide Busy;
    MayBegin(lay, s, t, b);
    hide Enabled;
    hide Absorb;
    var a1, m1 := OpReads(lay, s, t, b);
    var a2, m2 := OpWrites(lay, m1, t, b, v);
    KeptTrans(s, m1, m2, b);
    NotMine(lay, s, t, m2, b);
    hide OthersKept;
    OpsBack(s.ops, t, b);
    UsersBack(UsersOf(s, b), t);
    hide UsersOf;
    r := OpEnds(lay, m2, t);
    SameKept(s, m2, r, b);
    GoesTrans(lay, s, a1, m1, a2, m2);
    GoesTrans(lay, s, a1 + a2, m2, [EndOp(t)], r);
    run := a1 + a2 + [EndOp(t)];
  }

  lemma OpsBack(ops: map<Tid, set<nat>>, t: Tid, b: nat)
    requires t !in ops
    ensures ops[t := {}][t := {b}] - {t} == ops && (ops[t := {}][t := {b}].Keys == {t} <==> ops == map[])
  {
    if ops != map[] {
      var u :| u in ops;
      assert u in ops[t := {}][t := {b}].Keys;
    }
  }

  lemma UsersBack(users: multiset<Tid>, t: Tid)
    ensures users + multiset{t} - multiset{t} == users
  {
  }

  lemma MayBegin(lay: Layout, s: Sys, t: Tid, b: nat)
    requires Enabled(lay, s, BeginOp(t))
    ensures t !in s.ops && t !in s.commits && Absorb(s.lh, b) != []
  {
  }

  lemma SameKept(s: Sys, m: Sys, r: Sys, b: nat)
    requires OthersKept(s, m, b) && r.cache == m.cache
    ensures OthersKept(s, r, b)
  {
  }

  /** From begin_op to the end of the commit: what was written is on disk, and nothing else
      has changed there. */
  lemma TransactionRuns(lay: Layout, s: Sys, t: Tid, b: nat, v: Block) returns (run: seq<Step>, r: Sys)
    requires Inv(lay, s) && AtRest(s) && Uses(s, t, {}) && lay.Home(b)
    ensures Goes(lay, s, run, r) && Inv(lay, r) && AtRest(r) && Uses(r, t, {})
    ensures lay.DiskOk(s.disk) && lay.DiskOk(r.disk) && Alpha(lay, r).durable == Alpha(lay, s).durable[b := v]
  {
    hide Inv;
    hide Goes;
    hide Alpha;
    RestIsDurable(lay, s);
    assert Pins(s) == [];
    BusyIs(s, t, {});
    var a1, m := OpRuns(lay, s, t, b, v);
    assert m.lh == [b] && Pins(m) == [b];
    var a2;
    a2, r := CommitRuns(lay, m, t);
    GoesTrans(lay, s, a1, m, a2, r);
    run := a1 + a2;
  }
}
