/** acquiresleep and releasesleep from call to return. */
module SleepLockCalls {
  import opened Base
  import opened Sleep
  import opened SleepLock
  import C = SleepCalls

  /** A run leads from s to r. */
  ghost predicate Leads(s: State, run: seq<Call>, r: State) {
    SleepLock.Possible(s, run) && SleepLock.After(s, run) == r
  }

  lemma {:induction false} LeadsTrans(s: State, a: seq<Call>, m: State, b: seq<Call>, r: State)
    requires Leads(s, a, m) && Leads(m, b, r)
    ensures Leads(s, a + b, r)
    decreases |a|
  {
    hide SleepLock.Enabled;
    hide SleepLock.Apply;
    if a == [] {
      assert a + b == b;
    } else {
      LeadsTrans(SleepLock.Apply(s, a[0]), a[1..], m, b, r);
      assert (a + b)[1..] == a[1..] + b;
    }
  }

  /** One call in front. */
  lemma LeadsMore(s: State, call: Call, run: seq<Call>, r: State)
    requires SleepLock.Enabled(s, call) && Leads(SleepLock.Apply(s, call), run, r)
    ensures Leads(s, [call] + run, r)
  {
    hide SleepLock.Enabled;
    hide SleepLock.Apply;
    var all := [call] + run;
    assert all[0] == call && all[1..] == run;
  }

  lemma LeadsNone(s: State)
    ensures Leads(s, [], s)
  {
  }

  /** The steps below that a caller takes there. */
  function Lifted(run: seq<Step>): (r: seq<Call>)
    ensures |r| == |run| && forall k :: 0 <= k < |run| ==> r[k] == Below(run[k])
  {
    seq(|run|, k requires 0 <= k < |run| => Below(run[k]))
  }

  predicate IsBelow(st: Step) {
    st.Advance? || st.Run? || st.SchedulerUnlock? || st.Kill? || st.Yield?
  }

  lemma {:induction false} Lift(s: State, run: seq<Step>, m: Sys)
    requires C.Leads(s.m, run, m) && forall k :: 0 <= k < |run| ==> IsBelow(run[k]) && run[k].p < |s.callers|
    ensures Leads(s, Lifted(run), s.(m := m))
    decreases |run|
  {
    hide Sleep.Enabled;
    hide Sleep.Apply;
    if run == [] {
      assert Lifted(run) == [];
    } else {
      var st := run[0];
      var r := SleepLock.Apply(s, Below(st));
      assert SleepLock.Enabled(s, Below(st));
      Lift(r, run[1..], m);
      assert Lifted(run) == [Below(st)] + Lifted(run[1..]);
      LeadsMore(s, Below(st), Lifted(run[1..]), s.(m := m));
    }
  }

  /** p is in no call and sleep-lock l's spinlock is free. */
  ghost predicate Ready(s: State, p: nat, l: nat) {
    && Shape(s) && p < |s.callers| && l < |s.lks| && s.callers[p].mode == Out && s.m.procs[p].pc == Idle
       && s.m.locks[l].spin == None
  }

  /** p comes to hold the spinlock. */
  lemma Entered(s: State, p: nat, l: nat, call: Call) returns (a: State, b: State)
    requires SleepLock.Inv(s) && Ready(s, p, l)
    requires call == Acquire(p, l) || (call == Release(p, l) && l in s.callers[p].held)
    ensures SleepLock.Enabled(s, call) && a == SleepLock.Apply(s, call)
    ensures SleepLock.Enabled(a, Below(Advance(p))) && b == SleepLock.Apply(a, Below(Advance(p)))
    ensures b == s.(m := SetLock(Goto(s.m, p, In(l)), l, s.m.locks[l].(spin := Some(p))),
                    callers := s.callers[p := s.callers[p].(mode := if call.Acquire? then Wants(l) else Gives(l))])
    ensures s.m.procs[p].owed == {} && s.m.procs[p].woken == {} && s.m.procs[p].state == Running
            && s.m.procs[p].chan == None && s.m.procs[p].lockedBy != Some(ByProc(p))
            && s.m.locks[l].ready == if s.lks[l].locked then {} else {l}
  {
    assert CallerOk(s, p) && DataOk(s, l) && StateOk(s.m.procs[p], s.m.lockOf) && SelfOk(s.m, p);
    a := SleepLock.Apply(s, call);
    b := SleepLock.Apply(a, Below(Advance(p)));
    assert b.m.procs == s.m.procs[p := s.m.procs[p].(pc := In(l))];
  }

  /** p has l. */
  ghost function Taken(s: State, p: nat, l: nat): (r: State)
    requires p < |s.callers| && l < |s.lks| && p < |s.m.procs| && l < |s.m.locks|
  {
    State(SetLock(s.m, l, Lock(None, {})), s.lks[l := Lk(true, p)],
          s.callers[p := s.callers[p].(held := s.callers[p].held + {l})])
  }

  /** The last two steps of acquiresleep, once l is free. */
  lemma TakeRuns(s: State, b: State, p: nat, l: nat)
    requires p < |s.callers| == |s.m.procs| && l < |s.lks| == |s.m.locks| && !s.lks[l].locked
    requires s.m.procs[p] == Proc(Idle, Running, None, s.m.procs[p].lockedBy, {}, {}) && s.callers[p].mode == Out
    requires b == s.(m := SetLock(Goto(s.m, p, In(l)), l, s.m.locks[l].(spin := Some(p))),
                     callers := s.callers[p := s.callers[p].(mode := Wants(l))])
    ensures Leads(b, [Test(p)] + ([Unlock(p)] + []), Taken(s, p, l))
  {
    var d := SleepLock.Apply(b, Test(p));
    var x, y := SleepLock.Apply(d, Unlock(p)), Taken(s, p, l);
    assert x.m.procs == y.m.procs && x.m.locks == y.m.locks && x.callers == y.callers;
    LeadsNone(y);
    LeadsMore(d, Unlock(p), [], y);
    LeadsMore(b, Test(p), [Unlock(p)] + [], y);
  }

  /** acquiresleep of a sleep-lock that is free. */
  lemma AcquireRuns(s: State, procs: nat, locks: nat, run: seq<Call>, p: nat, l: nat) returns (more: seq<Call>)
    requires SleepLock.Reachable(s, procs, locks, run) && Ready(s, p, l) && !s.lks[l].locked
    ensures Leads(s, more, Taken(s, p, l))
  {
    hide Leads;
    hide SleepLock.Inv;
    hide SleepLock.Enabled;
    hide SleepLock.Apply;
    hide Taken;
    SleepLock.RunInv(s, procs, locks, run);
    var a, b := Entered(s, p, l, Acquire(p, l));
    TakeRuns(s, b, p, l);
    more := [Test(p)] + ([Unlock(p)] + []);
    LeadsMore(a, Below(Advance(p)), more, Taken(s, p, l));
    more := [Below(Advance(p))] + more;
    LeadsMore(s, Acquire(p, l), more, Taken(s, p, l));
    more := [Acquire(p, l)] + more;
  }

  /** p is asleep until l is given back. */
  ghost function Blocked(s: State, p: nat, l: nat): (r: State)
    requires p < |s.callers| && p < |s.m.procs| && l < |s.m.locks|
  {
    s.(m := C.Slept(s.m, p, l, l), callers := s.callers[p := s.callers[p].(mode := Wants(l))])
  }

  lemma BlockMoves(s: State, b: State, p: nat, l: nat) returns (x: State)
    requires Ready(s, p, l) && s.lks[l].locked && s.m.locks[l].ready == {}
    requires s.m.procs[p] == Proc(Idle, Running, None, None, {}, {})
    requires b == s.(m := SetLock(Goto(s.m, p, In(l)), l, s.m.locks[l].(spin := Some(p))),
                     callers := s.callers[p := s.callers[p].(mode := Wants(l))])
    ensures SleepLock.Enabled(b, Test(p)) && x == SleepLock.Apply(b, Test(p))
    ensures Leads(x, Lifted([Advance(p)] + ([Advance(p)] + ([Advance(p)] + [SchedulerUnlock(p)]))), Blocked(s, p, l))
  {
    hide C.Leads;
    hide Leads;
    x := SleepLock.Apply(b, Test(p));
    var e0, e1, e2, e3 := C.SleepMoves(b.m, p, l, l);
    var r := C.Slept(b.m, p, l, l);
    assert x == b.(m := e0);
    assert r.procs == C.Slept(s.m, p, l, l).procs && r.locks == C.Slept(s.m, p, l, l).locks;
    hide Sleep.Enabled;
    hide Sleep.Apply;
    C.LeadsOne(e3, SchedulerUnlock(p));
    C.LeadsMore(e2, Advance(p), [SchedulerUnlock(p)], r);
    C.LeadsMore(e1, Advance(p), [Advance(p)] + [SchedulerUnlock(p)], r);
    C.LeadsMore(e0, Advance(p), [Advance(p)] + ([Advance(p)] + [SchedulerUnlock(p)]), r);
    Lift(x, [Advance(p)] + ([Advance(p)] + ([Advance(p)] + [SchedulerUnlock(p)])), r);
  }

  /** acquiresleep of one that is not. */
  lemma BlockRuns(s: State, procs: nat, locks: nat, run: seq<Call>, p: nat, l: nat) returns (more: seq<Call>)
    requires SleepLock.Reachable(s, procs, locks, run) && Ready(s, p, l) && s.lks[l].locked
             && s.m.procs[p].lockedBy == None
    ensures Leads(s, more, Blocked(s, p, l))
  {
    hide Leads;
    hide SleepLock.Inv;
    hide SleepLock.Enabled;
    hide SleepLock.Apply;
    hide Blocked;
    SleepLock.RunInv(s, procs, locks, run);
    var r := Blocked(s, p, l);
    var a, b := Entered(s, p, l, Acquire(p, l));
    var x := BlockMoves(s, b, p, l);
    more := Lifted([Advance(p)] + ([Advance(p)] + ([Advance(p)] + [SchedulerUnlock(p)])));
    LeadsMore(b, Test(p), more, r);
    more := [Test(p)] + more;
    LeadsMore(a, Below(Advance(p)), more, r);
    more := [Below(Advance(p))] + more;
    LeadsMore(s, Acquire(p, l), more, r);
    more := [Acquire(p, l)] + more;
  }

  /** l is free, and whoever slept for it is ready to run. */
  ghost function GivenBack(s: State, p: nat, l: nat): (r: State)
    requires p < |s.callers| && l < |s.lks| && p < |s.m.procs| && l < |s.m.locks|
  {
    State(SetLock(s.m.(procs := seq(|s.m.procs|, j requires 0 <= j < |s.m.procs| =>
                         if j == p then s.m.procs[p] else C.Awake(s.m.procs[j], l, true))), l, Lock(None, {l})),
          s.lks[l := Lk(false, 0)], s.callers[p := s.callers[p].(held := s.callers[p].held - {l})])
  }

  lemma GiveMoves(s: State, b: State, p: nat, l: nat) returns (x: State, y: State)
    requires Ready(s, p, l) && s.m.lockOf[l] == l && s.m.locks[l].ready == {}
    requires forall j :: 0 <= j < |s.m.procs| ==> s.m.procs[j].lockedBy == None
    requires s.m.procs[p] == Proc(Idle, Running, None, None, {}, {})
    requires b == s.(m := SetLock(Goto(s.m, p, In(l)), l, s.m.locks[l].(spin := Some(p))),
                     callers := s.callers[p := s.callers[p].(mode := Gives(l))])
    ensures SleepLock.Enabled(b, Clear(p)) && x == SleepLock.Apply(b, Clear(p))
    ensures SleepLock.Enabled(x, Tell(p)) && y == SleepLock.Apply(x, Tell(p))
    ensures C.Waking(y.m, p, l, 0, l) && |y.callers| == |s.callers| && p < |y.m.procs|
    ensures y == b.(m := y.m, lks := s.lks[l := Lk(false, 0)],
                    callers := s.callers[p := Caller(Told(l), s.callers[p].held - {l})])
    ensures y.m == SetLock(SetProc(s.m, p, Proc(WakeGrab(l, 0), Running, None, None, {l}, {})), l, Lock(Some(p), {l}))
  {
    x := SleepLock.Apply(b, Clear(p));
    assert x.m.procs[p].owed == {l};
    y := SleepLock.Apply(x, Tell(p));
    var z := SetLock(SetProc(s.m, p, Proc(WakeGrab(l, 0), Running, None, None, {l}, {})), l, Lock(Some(p), {l}));
    assert y.m.procs == z.procs && y.m.locks == z.locks;
    assert y.callers == s.callers[p := Caller(Told(l), s.callers[p].held - {l})];
  }

  lemma GiveEnds(s: State, y: State, p: nat, l: nat) returns (z: State)
    requires Ready(s, p, l) && s.m.procs[p] == Proc(Idle, Running, None, None, {}, {}) && l < |s.m.locks|
    requires y.m == SetLock(SetProc(s.m, p, Proc(WakeGrab(l, 0), Running, None, None, {l}, {})), l, Lock(Some(p), {l}))
    requires y.lks == s.lks[l := Lk(false, 0)] && y.callers == s.callers[p := Caller(Told(l), s.callers[p].held - {l})]
    ensures z == y.(m := C.Woken(y.m, p, l, 0, l))
    ensures SleepLock.Enabled(z, Unlock(p)) && SleepLock.Apply(z, Unlock(p)) == GivenBack(s, p, l)
  {
    z := y.(m := C.Woken(y.m, p, l, 0, l));
    var u, v := SleepLock.Apply(z, Unlock(p)), GivenBack(s, p, l);
    assert u.m.procs == v.m.procs && u.m.locks == v.m.locks && u.callers == v.callers;
  }

  /** releasesleep. */
  lemma ReleaseRuns(s: State, p: nat, l: nat) returns (more: seq<Call>)
    requires SleepLock.Inv(s) && Ready(s, p, l) && l in s.callers[p].held
    requires forall j :: 0 <= j < |s.m.procs| ==> s.m.procs[j].lockedBy == None
    ensures Leads(s, more, GivenBack(s, p, l))
  {
    hide Leads;
    hide C.Leads;
    hide SleepLock.Enabled;
    hide SleepLock.Apply;
    hide GivenBack;
    hide C.Woken;
    assert HasOk(s, p, l);
    hide SleepLock.Inv;
    var r := GivenBack(s, p, l);
    var a, b := Entered(s, p, l, Release(p, l));
    var x, y := GiveMoves(s, b, p, l);
    var n := C.WakeMoves(y.m, p, l, 0, l);
    var z := GiveEnds(s, y, p, l);
    Lift(y, C.Moves(p, n), z.m);
    LeadsNone(r);
    LeadsMore(z, Unlock(p), [], r);
    more := Lifted(C.Moves(p, n)) + ([Unlock(p)] + []);
    LeadsTrans(y, Lifted(C.Moves(p, n)), z, [Unlock(p)] + [], r);
    LeadsMore(x, Tell(p), more, r);
    more := [Tell(p)] + more;
    LeadsMore(b, Clear(p), more, r);
    more := [Clear(p)] + more;
    LeadsMore(a, Below(Advance(p)), more, r);
    more := [Below(Advance(p))] + more;
    LeadsMore(s, Release(p, l), more, r);
    more := [Release(p, l)] + more;
  }

  /** p sleeps for l. */
  ghost predicate Waits(s: State, p: nat, l: nat) {
    && p < |s.callers| && p < |s.m.procs| && s.callers[p].mode == Wants(l)
    && s.m.procs[p].pc == Off(Some(l)) && s.m.procs[p].state == Sleeping
  }

  /** p had it from the start, as far as one can tell. */
  ghost function Instead(s: State, p: nat): (r: State)
    requires p < |s.callers| && p < |s.m.procs|
  {
    s.(m := SetProc(s.m, p, Proc(Idle, Running, None, None, {}, {})),
       callers := s.callers[p := s.callers[p].(mode := Out)])
  }

  lemma Resumes(g: State, p: nat, l: nat) returns (b: State)
    requires p < |g.callers| == |g.m.procs| && l < |g.lks| == |g.m.locks| && On(g.m, l, l) && !g.lks[l].locked
    requires g.callers[p].mode == Wants(l) && g.m.locks[l].spin == None
    requires g.m.procs[p] == Proc(Off(Some(l)), Runnable, Some(l), None, {}, {})
    ensures Leads(g, Lifted([Run(p)] + ([Advance(p)] + [Advance(p)])), b)
    ensures Leads(b, [Test(p)] + ([Unlock(p)] + []), Taken(Instead(g, p), p, l))
  {
    hide Leads;
    hide C.Leads;
    hide Taken;
    var m := C.Resumed(g.m, p, l);
    C.ResumeRuns(g.m, p, l, l);
    Lift(g, [Run(p)] + ([Advance(p)] + [Advance(p)]), m);
    b := g.(m := m);
    var s := Instead(g, p);
    var d := s.(m := SetLock(Goto(s.m, p, In(l)), l, s.m.locks[l].(spin := Some(p))),
                callers := s.callers[p := s.callers[p].(mode := Wants(l))]);
    assert d.m.procs == b.m.procs && d.callers == b.callers;
    TakeRuns(s, b, p, l);
  }

  lemma Roused(s: State, q: nat, p: nat, l: nat)
    requires SleepLock.Inv(s) && Ready(s, q, l) && Waits(s, p, l) && s.m.procs[p].lockedBy == None
    ensures var g := GivenBack(s, q, l);
            g.m.procs[p] == Proc(Off(Some(l)), Runnable, Some(l), None, {}, {})
    ensures p != q && On(s.m, l, l)
  {
    assert CallerOk(s, p) && StateOk(s.m.procs[p], s.m.lockOf);
  }

  /** A sleep-lock goes from the process that gives it back to one that sleeps for it. */
  lemma HandOver(s: State, procs: nat, locks: nat, run: seq<Call>, q: nat, p: nat, l: nat)
      returns (more: seq<Call>, r: State)
    requires SleepLock.Reachable(s, procs, locks, run) && Ready(s, q, l) && l in s.callers[q].held && Waits(s, p, l)
    requires forall j :: 0 <= j < |s.m.procs| ==> s.m.procs[j].lockedBy == None
    ensures Leads(s, more, r) && |r.lks| == |s.lks| && |r.callers| == |s.callers|
    ensures r.lks == s.lks[l := Lk(true, p)]
    ensures r.callers[p] == Caller(Out, s.callers[p].held + {l}) && l !in r.callers[q].held
  {
    hide Leads;
    hide SleepLock.Inv;
    SleepLock.RunInv(s, procs, locks, run);
    Roused(s, q, p, l);
    var g := GivenBack(s, q, l);
    more := ReleaseRuns(s, q, l);
    var b := Resumes(g, p, l);
    r := Taken(Instead(g, p), p, l);
    var back, take := Lifted([Run(p)] + ([Advance(p)] + [Advance(p)])), [Test(p)] + ([Unlock(p)] + []);
    LeadsTrans(g, back, b, take, r);
    LeadsTrans(s, more, g, back + take, r);
    more := more + (back + take);
  }
}
