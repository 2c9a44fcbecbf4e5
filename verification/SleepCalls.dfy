/** What sleep, wakeup and yield do from call to return: the machine of Sleep, with one
    process moving, comes to a state that is given here without its steps. */
module SleepCalls {
  import opened Base
  import opened Sleep

  /** A run leads from s to r. */
  ghost predicate Leads(s: Sys, run: seq<Step>, r: Sys) {
    Possible(s, run) && After(s, run) == r
  }

  lemma {:induction false} LeadsTrans(s: Sys, a: seq<Step>, m: Sys, b: seq<Step>, r: Sys)
    requires Leads(s, a, m) && Leads(m, b, r)
    ensures Leads(s, a + b, r)
    decreases |a|
  {
    hide Enabled;
    hide Apply;
    if a == [] {
      assert a + b == b;
    } else {
      LeadsTrans(Apply(s, a[0]), a[1..], m, b, r);
      assert (a + b)[1..] == a[1..] + b;
    }
  }

  lemma LeadsOne(s: Sys, st: Step)
    requires Enabled(s, st)
    ensures Leads(s, [st], Apply(s, st))
  {
    hide Enabled;
    hide Apply;
    var run := [st];
    assert run[0] == st && run[1..] == [];
    assert After(Apply(s, st), []) == Apply(s, st);
    assert Possible(s, run);
  }

  /** One step in front. */
  lemma LeadsMore(s: Sys, st: Step, run: seq<Step>, r: Sys)
    requires Enabled(s, st) && Leads(Apply(s, st), run, r)
    ensures Leads(s, [st] + run, r)
  {
    hide Enabled;
    hide Apply;
    hide Leads;
    LeadsOne(s, st);
    LeadsTrans(s, [st], Apply(s, st), run, r);
  }

  /** p holds lock l, which it may let go. */
  ghost predicate Holding(s: Sys, p: nat, l: nat) {
    && p < |s.procs| && s.procs[p].pc == In(l) && s.procs[p].state == Running && s.procs[p].chan == None
    && s.procs[p].lockedBy == None && l < |s.locks|
  }

  // ---------- sleep ----------

  /** p is asleep on c and the lock is free. */
  ghost function Slept(s: Sys, p: nat, c: nat, l: nat): (r: Sys)
    requires p < |s.procs| && l < |s.locks|
  {
    SetLock(SetProc(s, p, Proc(Off(Some(c)), Sleeping, Some(c), None, {}, {})), l, s.locks[l].(spin := None))
  }

  function SleepRun(p: nat, c: nat): (r: seq<Step>) {
    [Wait(p, c), Advance(p), Advance(p), Advance(p), SchedulerUnlock(p)]
  }

  lemma SleepMoves(s: Sys, p: nat, c: nat, l: nat) returns (a: Sys, b: Sys, d: Sys, e: Sys)
    requires Holding(s, p, l) && On(s, c, l) && c !in s.locks[l].ready && s.procs[p].owed == {}
    ensures Enabled(s, Wait(p, c)) && a == Apply(s, Wait(p, c))
    ensures Enabled(a, Advance(p)) && b == Apply(a, Advance(p))
    ensures Enabled(b, Advance(p)) && d == Apply(b, Advance(p))
    ensures Enabled(d, Advance(p)) && e == Apply(d, Advance(p))
    ensures Enabled(e, SchedulerUnlock(p)) && Apply(e, SchedulerUnlock(p)) == Slept(s, p, c, l)
  {
    a := Apply(s, Wait(p, c));
    b := Apply(a, Advance(p));
    d := Apply(b, Advance(p));
    e := Apply(d, Advance(p));
    var x, y := Apply(e, SchedulerUnlock(p)), Slept(s, p, c, l);
    assert x.procs == y.procs && x.locks == y.locks;
  }

  /** sleep, by a process that holds the channel's lock and finds its condition false. */
  lemma SleepRuns(s: Sys, p: nat, c: nat, l: nat)
    requires Holding(s, p, l) && On(s, c, l) && c !in s.locks[l].ready && s.procs[p].owed == {}
    ensures Leads(s, SleepRun(p, c), Slept(s, p, c, l))
  {
    hide Leads;
    hide Enabled;
    hide Apply;
    var a, b, d, e := SleepMoves(s, p, c, l);
    var r := Slept(s, p, c, l);
    LeadsOne(e, SchedulerUnlock(p));
    LeadsMore(d, Advance(p), [SchedulerUnlock(p)], r);
    LeadsMore(b, Advance(p), [Advance(p)] + [SchedulerUnlock(p)], r);
    LeadsMore(a, Advance(p), [Advance(p)] + ([Advance(p)] + [SchedulerUnlock(p)]), r);
    LeadsMore(s, Wait(p, c), [Advance(p)] + ([Advance(p)] + ([Advance(p)] + [SchedulerUnlock(p)])), r);
    assert SleepRun(p, c) == [Wait(p, c)] + ([Advance(p)] + ([Advance(p)] + ([Advance(p)] + [SchedulerUnlock(p)])));
  }

  // ---------- back from sleep ----------

  /** p has the lock of c again and is on no channel. */
  ghost function Resumed(s: Sys, p: nat, l: nat): (r: Sys)
    requires p < |s.procs| && l < |s.locks|
  {
    SetLock(SetProc(s, p, s.procs[p].(pc := In(l), state := Running, chan := None, lockedBy := None)), l,
            s.locks[l].(spin := Some(p)))
  }

  /** A process that was woken runs again, with the lock that it slept with. */
  lemma ResumeRuns(s: Sys, p: nat, c: nat, l: nat)
    requires p < |s.procs| && s.procs[p].pc == Off(Some(c)) && s.procs[p].state == Runnable
             && s.procs[p].lockedBy == None
    requires On(s, c, l) && s.locks[l].spin == None
    ensures Leads(s, [Run(p)] + ([Advance(p)] + [Advance(p)]), Resumed(s, p, l))
  {
    hide Leads;
    var a := Apply(s, Run(p));
    var b := Apply(a, Advance(p));
    var x, y := Apply(b, Advance(p)), Resumed(s, p, l);
    assert x.procs == y.procs && x.locks == y.locks;
    LeadsOne(b, Advance(p));
    LeadsMore(a, Advance(p), [Advance(p)], y);
    LeadsMore(s, Run(p), [Advance(p)] + [Advance(p)], y);
  }

  /** kill ends a sleep: the process runs again, with the lock that it slept with. */
  lemma KillRuns(s: Sys, p: nat, c: nat, l: nat)
    requires p < |s.procs| && s.procs[p].pc == Off(Some(c)) && s.procs[p].state == Sleeping
             && s.procs[p].lockedBy == None
    requires On(s, c, l) && s.locks[l].spin == None
    ensures Leads(s, [Kill(p)] + ([Run(p)] + ([Advance(p)] + [Advance(p)])), Resumed(s, p, l))
  {
    hide Leads;
    var m := Apply(s, Kill(p));
    ResumeRuns(m, p, c, l);
    assert Resumed(m, p, l).procs == Resumed(s, p, l).procs;
    LeadsMore(s, Kill(p), [Run(p)] + ([Advance(p)] + [Advance(p)]), Resumed(s, p, l));
  }

  /** yield changes nothing but who runs in between. */
  lemma YieldRuns(s: Sys, p: nat)
    requires p < |s.procs| && s.procs[p].pc == Idle && s.procs[p].state == Running && s.procs[p].chan == None
             && s.procs[p].lockedBy == None
    ensures Leads(s, [Yield(p)] + ([Advance(p)] + ([SchedulerUnlock(p)] + ([Run(p)] + [Advance(p)]))), s)
    ensures Leads(s, [Yield(p)] + ([Advance(p)] + [SchedulerUnlock(p)]),
                  SetProc(s, p, s.procs[p].(pc := Off(None), state := Runnable)))
  {
    hide Leads;
    var a := Apply(s, Yield(p));
    var b := Apply(a, Advance(p));
    var d := Apply(b, SchedulerUnlock(p));
    var e := Apply(d, Run(p));
    assert Apply(e, Advance(p)).procs == s.procs;
    assert d.procs == s.procs[p := s.procs[p].(pc := Off(None), state := Runnable)];
    LeadsOne(e, Advance(p));
    LeadsMore(d, Run(p), [Advance(p)], s);
    LeadsMore(b, SchedulerUnlock(p), [Run(p)] + [Advance(p)], s);
    LeadsMore(a, Advance(p), [SchedulerUnlock(p)] + ([Run(p)] + [Advance(p)]), s);
    LeadsMore(s, Yield(p), [Advance(p)] + ([SchedulerUnlock(p)] + ([Run(p)] + [Advance(p)])), s);
    LeadsOne(b, SchedulerUnlock(p));
    LeadsMore(a, Advance(p), [SchedulerUnlock(p)], d);
    LeadsMore(s, Yield(p), [Advance(p)] + [SchedulerUnlock(p)], d);
  }

  // ---------- wakeup ----------

  /** Process j when a wakeup on c has passed all before slot i: asleep on c, it is ready
      to run; else it is as it was. */
  ghost function Awake(q: Proc, c: nat, passed: bool): (r: Proc) {
    if passed && q.state == Sleeping && q.chan == Some(c) then q.(state := Runnable) else q
  }

  /** wakeup from slot i on. */
  ghost function Woken(s: Sys, p: nat, c: nat, i: nat, l: nat): (r: Sys)
    requires p < |s.procs|
  {
    s.(procs := seq(|s.procs|, j requires 0 <= j < |s.procs| =>
         if j == p then s.procs[p].(pc := In(l), owed := s.procs[p].owed - {c}, woken := s.procs[p].woken + {c})
         else Awake(s.procs[j], c, i <= j)))
  }

  ghost predicate Waking(s: Sys, p: nat, c: nat, i: nat, l: nat) {
    && p < |s.procs| && s.procs[p].pc == WakeGrab(c, i) && i <= |s.procs| && c < |s.lockOf| && s.lockOf[c] == l
    && forall j :: 0 <= j < |s.procs| && j != p ==> s.procs[j].lockedBy == None
  }

  lemma WakeSelf(s: Sys, p: nat, c: nat, l: nat) returns (r: Sys)
    requires Waking(s, p, c, p, l)
    ensures Enabled(s, Advance(p)) && r == Apply(s, Advance(p)) && |r.procs| == |s.procs|
    ensures Waking(r, p, c, p + 1, l) && Woken(r, p, c, p + 1, l) == Woken(s, p, c, p, l)
  {
    r := Apply(s, Advance(p));
    var x, y := Woken(r, p, c, p + 1, l), Woken(s, p, c, p, l);
    assert x.procs == y.procs;
  }

  lemma WakeOther(s: Sys, p: nat, c: nat, i: nat, l: nat) returns (m: Sys, r: Sys)
    requires Waking(s, p, c, i, l) && i < |s.procs| && i != p
    ensures Enabled(s, Advance(p)) && m == Apply(s, Advance(p)) && |r.procs| == |s.procs|
    ensures Enabled(m, Advance(p)) && r == Apply(m, Advance(p))
    ensures Waking(r, p, c, i + 1, l) && Woken(r, p, c, i + 1, l) == Woken(s, p, c, i, l)
  {
    m := Apply(s, Advance(p));
    r := Apply(m, Advance(p));
    var x, y := Woken(r, p, c, i + 1, l), Woken(s, p, c, i, l);
    assert x.procs == y.procs;
  }

  lemma WakeEnds(s: Sys, p: nat, c: nat, l: nat)
    requires Waking(s, p, c, |s.procs|, l)
    ensures Enabled(s, Advance(p)) && Apply(s, Advance(p)) == Woken(s, p, c, |s.procs|, l)
  {
    var x, y := Apply(s, Advance(p)), Woken(s, p, c, |s.procs|, l);
    assert x.procs == y.procs;
  }

  /** Process p moves n times. */
  function Moves(p: nat, n: nat): (r: seq<Step>)
    ensures |r| == n && forall k :: 0 <= k < n ==> r[k] == Advance(p)
  {
    seq(n, _ => Advance(p))
  }

  lemma MovesMore(s: Sys, p: nat, n: nat, r: Sys)
    requires Enabled(s, Advance(p)) && Leads(Apply(s, Advance(p)), Moves(p, n), r)
    ensures Leads(s, Moves(p, n + 1), r)
  {
    hide Enabled;
    hide Apply;
    hide Leads;
    LeadsMore(s, Advance(p), Moves(p, n), r);
    assert [Advance(p)] + Moves(p, n) == Moves(p, n + 1);
  }

  lemma {:induction false} WakeMoves(s: Sys, p: nat, c: nat, i: nat, l: nat) returns (n: nat)
    requires Waking(s, p, c, i, l)
    ensures Leads(s, Moves(p, n), Woken(s, p, c, i, l))
    decreases |s.procs| - i
  {
    hide Leads;
    hide Enabled;
    hide Apply;
    hide Woken;
    var r := Woken(s, p, c, i, l);
    if i == |s.procs| {
      WakeEnds(s, p, c, l);
      assert Moves(p, 1) == [Advance(p)];
      LeadsOne(s, Advance(p));
      n := 1;
    } else if i == p {
      var m := WakeSelf(s, p, c, l);
      n := WakeMoves(m, p, c, i + 1, l);
      MovesMore(s, p, n, r);
      n := n + 1;
    } else {
      var m, u := WakeOther(s, p, c, i, l);
      n := WakeMoves(u, p, c, i + 1, l);
      MovesMore(m, p, n, r);
      MovesMore(s, p, n + 1, r);
      n := n + 2;
    }
  }

  lemma WakeBegins(s: Sys, p: nat, c: nat, l: nat) returns (m: Sys)
    requires Holding(s, p, l) && On(s, c, l) && forall j :: 0 <= j < |s.procs| ==> s.procs[j].lockedBy == None
    ensures Enabled(s, Wake(p, c)) && m == Apply(s, Wake(p, c)) && Waking(m, p, c, 0, l)
    ensures Woken(m, p, c, 0, l) == Woken(s, p, c, 0, l)
  {
    m := Apply(s, Wake(p, c));
    var x, y := Woken(m, p, c, 0, l), Woken(s, p, c, 0, l);
    assert x.procs == y.procs;
  }

  /** wakeup: exactly the processes asleep on c are ready to run. */
  lemma WakeRuns(s: Sys, p: nat, c: nat, l: nat) returns (n: nat)
    requires Holding(s, p, l) && On(s, c, l) && forall j :: 0 <= j < |s.procs| ==> s.procs[j].lockedBy == None
    ensures Leads(s, [Wake(p, c)] + Moves(p, n), Woken(s, p, c, 0, l))
  {
    hide Leads;
    hide Enabled;
    hide Apply;
    hide Woken;
    var m := WakeBegins(s, p, c, l);
    n := WakeMoves(m, p, c, 0, l);
    LeadsMore(s, Wake(p, c), Moves(p, n), Woken(s, p, c, 0, l));
  }

  /** Whatever else happens, only kill and a wakeup on its own channel, by a process that
      holds the channel's lock, end a process's sleep. */
  lemma WokenBy(s: Sys, u: Setup, run: seq<Step>, st: Step, q: nat)
    requires Reachable(s, u, run) && Enabled(s, st) && q < |s.procs| && s.procs[q].state == Sleeping
    requires q < |Apply(s, st).procs| && Apply(s, st).procs[q].state != Sleeping
    ensures || st == Kill(q)
            || (st.Advance? && s.procs[q].chan.Some? && s.procs[st.p].pc == WakeCheck(s.procs[q].chan.value, q)
                && var c := s.procs[q].chan.value;
                   c < |s.lockOf| && s.lockOf[c] < |s.locks| && s.locks[s.lockOf[c]].spin == Some(st.p))
  {
    RunInv(s, u, run);
    assert StateOk(s.procs[q], s.lockOf) && StateOk(s.procs[st.p], s.lockOf) && SpinOk(s, st.p) && SelfOk(s, q);
  }
}
