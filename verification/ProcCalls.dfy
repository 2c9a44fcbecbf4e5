/** What kfork, kexit and kwait do from call to return: the machine of ProcTree, with
    one process moving, comes to a state that is given here without its steps. */
module ProcCalls {
  import opened Base
  import opened ProcTree

  /** Process p moves n times. */
  function Moves(p: nat, n: nat, choice: bool): (r: seq<Step>)
    ensures |r| == n && forall k :: 0 <= k < n ==> r[k] == Advance(p, choice)
  {
    seq(n, _ => Advance(p, choice))
  }

  /** A run leads from s to r. */
  ghost predicate Leads(s: Sys, run: seq<Step>, r: Sys) {
    Possible(s, run) && After(s, run) == r
  }

  lemma {:induction false} LeadsTrans(s: Sys, a: seq<Step>, m: Sys, b: seq<Step>, r: Sys)
    requires Leads(s, a, m) && Leads(m, b, r)
    ensures Leads(s, a + b, r)
    decreases |a|
  {
    hide Enabled;
    hide Apply;
    if a == [] {
      assert a + b == b;
    } else {
      LeadsTrans(Apply(s, a[0]), a[1..], m, b, r);
      assert (a + b)[1..] == a[1..] + b;
    }
  }

  lemma LeadsOne(s: Sys, st: Step)
    requires Enabled(s, st)
    ensures Leads(s, [st], Apply(s, st))
  {
    hide Enabled;
    hide Apply;
    var run := [st];
    assert run[0] == st && run[1..] == [];
    assert After(Apply(s, st), []) == Apply(s, st);
    assert Possible(s, run);
  }

  /** One move more in front. */
  lemma MovesMore(s: Sys, p: nat, n: nat, choice: bool, r: Sys)
    requires Enabled(s, Advance(p, choice)) && Leads(Apply(s, Advance(p, choice)), Moves(p, n, choice), r)
    ensures Leads(s, Moves(p, n + 1, choice), r)
  {
    hide Enabled;
    hide Apply;
    hide Leads;
    LeadsOne(s, Advance(p, choice));
    LeadsTrans(s, [Advance(p, choice)], Apply(s, Advance(p, choice)), Moves(p, n, choice), r);
    assert [Advance(p, choice)] + Moves(p, n, choice) == Moves(p, n + 1, choice);
  }

  lemma MovesNone(s: Sys, p: nat, choice: bool)
    ensures Leads(s, Moves(p, 0, choice), s)
  {
  }

  // ---------- kwait ----------

  /** The first exited child of p from slot k on. */
  ghost function FirstZombie(s: Sys, p: nat, k: nat): (i: nat)
    requires k <= |s.slots|
    ensures k <= i <= |s.slots|
    ensures i < |s.slots| ==> s.slots[i].parent == Some(p) && s.slots[i].state == Zombie
    ensures forall j :: k <= j < i ==> s.slots[j].parent != Some(p) || s.slots[j].state != Zombie
    decreases |s.slots| - k
  {
    if k == |s.slots| || (s.slots[k].parent == Some(p) && s.slots[k].state == Zombie) then k
    else FirstZombie(s, p, k + 1)
  }

  ghost predicate HasChild(s: Sys, p: nat, k: nat) {
    exists j :: k <= j < |s.slots| && s.slots[j].parent == Some(p)
  }

  /** kwait from the look at slot k on: it returns the first exited child, whose slot is
      empty afterwards, unless copyout fails; without one it sleeps if there are
      children, unless it is killed. */
  ghost function Waited(s: Sys, p: nat, k: nat, kids: bool, choice: bool): (r: Sys)
    requires p < |s.slots| && k <= |s.slots|
  {
    var back, i := Goto(s, p, User).(waitLock := None), FirstZombie(s, p, k);
    if i < |s.slots| then
      if choice then Set(back, i, Empty).(reaped := s.reaped + [s.slots[i].pid]) else back
    else if (kids || HasChild(s, p, k)) && !choice then
      Set(s, p, s.slots[p].(pc := WaitAsleep, state := Sleeping)).(waitLock := None)
    else back
  }

  ghost predicate ScanReady(s: Sys, p: nat, k: nat) {
    && p < |s.slots| && s.slots[p].state == Running && s.slots[p].parent != Some(p) && k <= |s.slots|
    && (forall j :: 0 <= j < |s.slots| && s.slots[j].switching ==> s.slots[j].state == Zombie)
    && var i := FirstZombie(s, p, k); i < |s.slots| ==> !s.slots[i].switching
  }

  /** The same system with p somewhere else, and perhaps with wait_lock. */
  ghost predicate Moved(s: Sys, r: Sys, p: nat) {
    p < |s.slots| && |r.slots| == |s.slots| && r == Goto(s, p, r.slots[p].pc).(waitLock := r.waitLock)
  }

  /** Where p stands does not matter to what it finds. */
  lemma {:induction false} SameScan(s: Sys, r: Sys, p: nat, k: nat)
    requires Moved(s, r, p) && k <= |s.slots|
    ensures FirstZombie(r, p, k) == FirstZombie(s, p, k) && (HasChild(r, p, k) <==> HasChild(s, p, k))
    decreases |s.slots| - k
  {
    assert forall j :: 0 <= j < |s.slots| ==>
             r.slots[j].parent == s.slots[j].parent && r.slots[j].state == s.slots[j].state;
    if k < |s.slots| {
      SameScan(s, r, p, k + 1);
    }
  }

  lemma SameWaited(s: Sys, r: Sys, p: nat, k: nat, kids: bool, choice: bool)
    requires Moved(s, r, p) && k <= |s.slots| && FirstZombie(s, p, k) != p
    ensures Waited(r, p, k, kids, choice) == Waited(s, p, k, kids, choice)
  {
    hide HasChild;
    SameScan(s, r, p, k);
    var a, b := Waited(r, p, k, kids, choice), Waited(s, p, k, kids, choice);
    assert a.slots == b.slots;
  }

  lemma StillReady(s: Sys, r: Sys, p: nat, k: nat)
    requires ScanReady(s, p, k) && Moved(s, r, p) && k < |s.slots| && FirstZombie(s, p, k) == FirstZombie(s, p, k + 1)
    ensures ScanReady(r, p, k + 1)
  {
    SameScan(s, r, p, k + 1);
    assert forall j :: 0 <= j < |s.slots| ==>
             r.slots[j].switching == s.slots[j].switching && r.slots[j].state == s.slots[j].state;
  }

  /** A slot that is no child. */
  lemma ScanPast(s: Sys, p: nat, k: nat, kids: bool, choice: bool) returns (r: Sys)
    requires ScanReady(s, p, k) && s.slots[p].pc == WaitScan(k, kids)
    requires k < |s.slots| && s.slots[k].parent != Some(p)
    ensures Enabled(s, Advance(p, choice)) && r == Apply(s, Advance(p, choice))
    ensures |r.slots| == |s.slots| && r.slots[p].pc == WaitScan(k + 1, kids)
    ensures ScanReady(r, p, k + 1) && Waited(r, p, k + 1, kids, choice) == Waited(s, p, k, kids, choice)
  {
    hide Waited;
    hide FirstZombie;
    r := Apply(s, Advance(p, choice));
    SkipWaited(s, p, k, kids, choice);
    StillReady(s, r, p, k);
    SameWaited(s, r, p, k + 1, kids, choice);
  }

  lemma SkipWaited(s: Sys, p: nat, k: nat, kids: bool, choice: bool)
    requires p < |s.slots| && k < |s.slots| && (s.slots[k].parent != Some(p) || s.slots[k].state != Zombie)
    ensures Waited(s, p, k, kids, choice) ==
            Waited(s, p, k + 1, kids || s.slots[k].parent == Some(p), choice)
    ensures FirstZombie(s, p, k) == FirstZombie(s, p, k + 1)
  {
    assert HasChild(s, p, k) <==> HasChild(s, p, k + 1) || s.slots[k].parent == Some(p);
  }

  /** A child that has not exited. */
  lemma ScanChild(s: Sys, p: nat, k: nat, kids: bool, choice: bool) returns (m: Sys, r: Sys)
    requires ScanReady(s, p, k) && s.slots[p].pc == WaitScan(k, kids)
    requires k < |s.slots| && s.slots[k].parent == Some(p) && s.slots[k].state != Zombie
    ensures Enabled(s, Advance(p, choice)) && m == Apply(s, Advance(p, choice))
    ensures Enabled(m, Advance(p, choice)) && r == Apply(m, Advance(p, choice))
    ensures |r.slots| == |s.slots| && r.slots[p].pc == WaitScan(k + 1, true)
    ensures ScanReady(r, p, k + 1) && Waited(r, p, k + 1, true, choice) == Waited(s, p, k, kids, choice)
  {
    hide Waited;
    hide FirstZombie;
    m := Apply(s, Advance(p, choice));
    r := Apply(m, Advance(p, choice));
    SkipWaited(s, p, k, kids, choice);
    StillReady(s, r, p, k);
    SameWaited(s, r, p, k + 1, true, choice);
  }

  /** A child that has. */
  lemma ScanZombie(s: Sys, p: nat, k: nat, kids: bool, choice: bool) returns (m: Sys)
    requires ScanReady(s, p, k) && s.slots[p].pc == WaitScan(k, kids)
    requires k < |s.slots| && s.slots[k].parent == Some(p) && s.slots[k].state == Zombie
    ensures Enabled(s, Advance(p, choice)) && m == Apply(s, Advance(p, choice))
    ensures Enabled(m, Advance(p, choice)) && Apply(m, Advance(p, choice)) == Waited(s, p, k, kids, choice)
  {
    m := Apply(s, Advance(p, choice));
    var a, b := Apply(m, Advance(p, choice)), Waited(s, p, k, kids, choice);
    assert a.slots == b.slots;
  }

  lemma {:induction false} ScanRuns(s: Sys, p: nat, k: nat, kids: bool, choice: bool) returns (n: nat)
    requires ScanReady(s, p, k) && s.slots[p].pc == WaitScan(k, kids)
    ensures Leads(s, Moves(p, n, choice), Waited(s, p, k, kids, choice))
    decreases |s.slots| - k
  {
    hide Leads;
    hide Enabled;
    hide Apply;
    hide Waited;
    hide Moved;
    var r := Waited(s, p, k, kids, choice);
    if k == |s.slots| {
      n := 0;
      ScanEnds(s, p, kids, choice);
      MovesNone(r, p, choice);
    } else if s.slots[k].parent != Some(p) {
      var m := ScanPast(s, p, k, kids, choice);
      n := ScanRuns(m, p, k + 1, kids, choice);
    } else if s.slots[k].state != Zombie {
      var m, u := ScanChild(s, p, k, kids, choice);
      n := ScanRuns(u, p, k + 1, true, choice);
      MovesMore(m, p, n, choice, r);
      n := n + 1;
    } else {
      var m := ScanZombie(s, p, k, kids, choice);
      MovesNone(r, p, choice);
      MovesMore(m, p, 0, choice, r);
      n := 1;
    }
    MovesMore(s, p, n, choice, r);
    n := n + 1;
  }

  lemma ScanEnds(s: Sys, p: nat, kids: bool, choice: bool)
    requires ScanReady(s, p, |s.slots|) && s.slots[p].pc == WaitScan(|s.slots|, kids)
    ensures Enabled(s, Advance(p, choice))
    ensures Apply(s, Advance(p, choice)) == Waited(s, p, |s.slots|, kids, choice)
  {
    assert !HasChild(s, p, |s.slots|);
  }

  /** p runs user code and can have wait_lock. */
  ghost predicate Ready(s: Sys, p: nat) {
    p < |s.slots| && s.slots[p].pc == User && s.slots[p].state == Running && s.waitLock == None
  }

  /** kwait's entry. */
  lemma WaitBegins(s: Sys, p: nat, choice: bool) returns (r: Sys)
    requires Inv(s) && p < |s.slots| && s.slots[p].pc == WaitWant && s.slots[p].state == Running && s.waitLock == None
    requires var i := FirstZombie(s, p, 0); i < |s.slots| ==> !s.slots[i].switching
    ensures Enabled(s, Advance(p, choice)) && r == Apply(s, Advance(p, choice))
    ensures ScanReady(r, p, 0) && r.slots[p].pc == WaitScan(0, false)
    ensures Waited(r, p, 0, false, choice) == Waited(s, p, 0, false, choice)
  {
    hide Waited;
    r := Apply(s, Advance(p, choice));
    assert SlotOk(s, p);
    assert forall j :: 0 <= j < |s.slots| ==> StateOk(s.slots[j]);
    SameScan(s, r, p, 0);
    SameWaited(s, r, p, 0, false, choice);
  }

  lemma WaitOn(s: Sys, p: nat, choice: bool) returns (n: nat)
    requires Inv(s) && p < |s.slots| && s.slots[p].pc == WaitWant && s.slots[p].state == Running && s.waitLock == None
    requires var i := FirstZombie(s, p, 0); i < |s.slots| ==> !s.slots[i].switching
    ensures Leads(s, Moves(p, n, choice), Waited(s, p, 0, false, choice))
  {
    hide Inv;
    hide Leads;
    hide Waited;
    hide ScanReady;
    hide Apply;
    var m := WaitBegins(s, p, choice);
    n := ScanRuns(m, p, 0, false, choice);
    MovesMore(s, p, n, choice, Waited(s, p, 0, false, choice));
    n := n + 1;
  }

  /** kwait, from any state of any run. */
  lemma WaitRuns(s: Sys, size: nat, run: seq<Step>, p: nat, choice: bool) returns (n: nat)
    requires Reachable(s, size, run) && Ready(s, p)
    requires var i := FirstZombie(s, p, 0); i < |s.slots| ==> !s.slots[i].switching
    ensures Leads(s, [Wait(p)] + Moves(p, n, choice), Waited(s, p, 0, false, choice))
  {
    hide Inv;
    hide Leads;
    hide Waited;
    hide Reachable;
    RunInv(s, size, run);
    var m := Apply(s, Wait(p));
    StepInv(s, Wait(p));
    SameScan(s, m, p, 0);
    NotOwnChild(s, p);
    SameWaited(s, m, p, 0, false, choice);
    n := WaitOn(m, p, choice);
    LeadsOne(s, Wait(p));
    LeadsTrans(s, [Wait(p)], m, Moves(p, n, choice), Waited(s, p, 0, false, choice));
  }

  lemma NotOwnChild(s: Sys, p: nat)
    requires Inv(s) && p < |s.slots|
    ensures s.slots[p].parent != Some(p)
  {
    assert SlotOk(s, p);
  }

  // ---------- kfork ----------

  /** The first free slot from slot k on. */
  ghost function FirstUnused(s: Sys, k: nat): (i: nat)
    requires k <= |s.slots|
    ensures k <= i <= |s.slots| && (i < |s.slots| ==> s.slots[i].state == Unused)
    ensures forall j :: k <= j < i ==> s.slots[j].state != Unused
    decreases |s.slots| - k
  {
    if k == |s.slots| || s.slots[k].state == Unused then k else FirstUnused(s, k + 1)
  }

  /** kfork: the first free slot holds a child that is ready to run, if there is one and
      memory is found; else there is no change but a pid that is not used again. */
  ghost function Forked(s: Sys, p: nat, k: nat, choice: bool): (r: Sys)
    requires p < |s.slots| && k <= |s.slots|
  {
    var back, i := Goto(s, p, User), FirstUnused(s, k);
    if i == |s.slots| then back
    else if !choice then back.(nextpid := s.nextpid + 1)
    else Set(back, i, Slot(User, Runnable, Some(p), s.nextpid, None, false)).(nextpid := s.nextpid + 1)
  }

  lemma {:induction false} SameFree(s: Sys, r: Sys, p: nat, k: nat)
    requires Moved(s, r, p) && k <= |s.slots|
    ensures FirstUnused(r, k) == FirstUnused(s, k)
    decreases |s.slots| - k
  {
    assert forall j :: 0 <= j < |s.slots| ==> r.slots[j].state == s.slots[j].state;
    if k < |s.slots| {
      SameFree(s, r, p, k + 1);
    }
  }

  ghost predicate LookReady(s: Sys, p: nat, k: nat) {
    && p < |s.slots| && s.slots[p].state == Running && s.slots[p].pc == ForkLook(k) && k <= |s.slots|
    && s.waitLock == None && forall j :: 0 <= j < |s.slots| ==> StateOk(s.slots[j])
  }

  /** A slot in use. */
  lemma LookPast(s: Sys, p: nat, k: nat, choice: bool) returns (r: Sys)
    requires LookReady(s, p, k) && k < |s.slots| && s.slots[k].state != Unused
    ensures Enabled(s, Advance(p, choice)) && r == Apply(s, Advance(p, choice)) && |r.slots| == |s.slots|
    ensures LookReady(r, p, k + 1) && Forked(r, p, k + 1, choice) == Forked(s, p, k, choice)
  {
    r := Apply(s, Advance(p, choice));
    SameFree(s, r, p, k + 1);
    var a, b := Forked(r, p, k + 1, choice), Forked(s, p, k, choice);
    assert a.slots == b.slots;
  }

  /** A free one: it is filled, gets its parent, and can run. */
  lemma LookFills(s: Sys, p: nat, k: nat) returns (a: Sys, b: Sys)
    requires LookReady(s, p, k) && k < |s.slots| && s.slots[k].state == Unused
    ensures Enabled(s, Advance(p, true)) && a == Apply(s, Advance(p, true))
    ensures Enabled(a, Advance(p, true)) && b == Apply(a, Advance(p, true))
    ensures Enabled(b, Advance(p, true)) && Apply(b, Advance(p, true)) == Forked(s, p, k, true)
  {
    assert StateOk(s.slots[k]);
    a := Apply(s, Advance(p, true));
    b := Apply(a, Advance(p, true));
    var c, d := Apply(b, Advance(p, true)), Forked(s, p, k, true);
    assert c.slots == d.slots;
  }

  lemma LookFails(s: Sys, p: nat, k: nat, choice: bool)
    requires LookReady(s, p, k) && (k == |s.slots| || (s.slots[k].state == Unused && !choice))
    ensures Enabled(s, Advance(p, choice)) && Apply(s, Advance(p, choice)) == Forked(s, p, k, choice)
  {
  }

  lemma {:induction false} LookRuns(s: Sys, p: nat, k: nat, choice: bool) returns (n: nat)
    requires LookReady(s, p, k)
    ensures Leads(s, Moves(p, n, choice), Forked(s, p, k, choice))
    decreases |s.slots| - k
  {
    hide Leads;
    hide Enabled;
    hide Apply;
    hide Forked;
    var r := Forked(s, p, k, choice);
    if k < |s.slots| && s.slots[k].state != Unused {
      var m := LookPast(s, p, k, choice);
      n := LookRuns(m, p, k + 1, choice);
    } else {
      n := 0;
      MovesNone(r, p, choice);
      if k == |s.slots| || !choice {
        LookFails(s, p, k, choice);
      } else {
        var a, b := LookFills(s, p, k);
        MovesMore(b, p, 0, choice, r);
        MovesMore(a, p, 1, choice, r);
        n := 2;
      }
    }
    MovesMore(s, p, n, choice, r);
    n := n + 1;
  }

  lemma ForkBegins(s: Sys, p: nat, choice: bool) returns (m: Sys)
    requires StateInv(s) && Ready(s, p)
    ensures Enabled(s, Fork(p)) && m == Apply(s, Fork(p)) && LookReady(m, p, 0)
    ensures Forked(m, p, 0, choice) == Forked(s, p, 0, choice)
  {
    hide FirstUnused;
    m := Apply(s, Fork(p));
    SameFree(s, m, p, 0);
    var a, b := Forked(m, p, 0, choice), Forked(s, p, 0, choice);
    assert a.slots == b.slots;
  }

  lemma NewPid(s: Sys, j: nat)
    requires Inv(s) && j < |s.slots| && s.slots[j].state != Unused
    ensures s.slots[j].pid != s.nextpid
  {
    assert SlotOk(s, j);
  }

  /** kfork, from any state of any run. The child's pid is no other process's, nor was
      it one's that has exited. */
  lemma ForkRuns(s: Sys, size: nat, run: seq<Step>, p: nat, choice: bool) returns (n: nat)
    requires Reachable(s, size, run) && Ready(s, p)
    ensures Leads(s, [Fork(p)] + Moves(p, n, choice), Forked(s, p, 0, choice))
    ensures s.nextpid !in s.exited && forall j :: 0 <= j < |s.slots| && s.slots[j].state != Unused ==>
              s.slots[j].pid != s.nextpid
  {
    hide Leads;
    hide Forked;
    hide Enabled;
    hide Apply;
    hide StateInv;
    hide SlotOk;
    hide PidApart;
    RunInv(s, size, run);
    var m := ForkBegins(s, p, choice);
    n := LookRuns(m, p, 0, choice);
    LeadsOne(s, Fork(p));
    LeadsTrans(s, [Fork(p)], m, Moves(p, n, choice), Forked(s, p, 0, choice));
    forall j | 0 <= j < |s.slots| && s.slots[j].state != Unused
      ensures s.slots[j].pid != s.nextpid
    {
      NewPid(s, j);
    }
  }

  // ---------- kexit ----------

  /** Slot j when p has handed its children from slot k on to init. */
  ghost function Handed(s: Sys, p: nat, k: nat, j: nat): (q: Slot)
    requires j < |s.slots|
  {
    var q := s.slots[j];
    var given := if k <= j && q.parent == Some(p) then q.(parent := Some(0)) else q;
    if j == 0 && HasChild(s, p, k) then Roused(given) else given
  }

  /** reparent from slot k on. */
  ghost function HandedOver(s: Sys, p: nat, k: nat): (r: Sys)
    requires p < |s.slots|
  {
    Goto(s.(slots := seq(|s.slots|, j requires 0 <= j < |s.slots| => Handed(s, p, k, j))), p, ExitWakeParent)
  }

  ghost predicate HandReady(s: Sys, p: nat, k: nat) {
    && 0 < p < |s.slots| && s.slots[p].state == Running && s.slots[p].pc == ExitReparent(k) && k <= |s.slots|
    && s.slots[p].parent != Some(p)
  }

  lemma HandPast(s: Sys, p: nat, k: nat, choice: bool) returns (r: Sys)
    requires HandReady(s, p, k) && k < |s.slots| && s.slots[k].parent != Some(p)
    ensures Enabled(s, Advance(p, choice)) && r == Apply(s, Advance(p, choice)) && |r.slots| == |s.slots|
    ensures HandReady(r, p, k + 1) && HandedOver(r, p, k + 1) == HandedOver(s, p, k)
  {
    r := Apply(s, Advance(p, choice));
    SameScan(s, r, p, k + 1);
    assert HasChild(s, p, k) <==> HasChild(s, p, k + 1);
    var a, b := HandedOver(r, p, k + 1), HandedOver(s, p, k);
    assert a.slots == b.slots;
  }

  lemma HandOne(s: Sys, p: nat, k: nat, choice: bool) returns (m: Sys, r: Sys)
    requires HandReady(s, p, k) && k < |s.slots| && s.slots[k].parent == Some(p)
    ensures Enabled(s, Advance(p, choice)) && m == Apply(s, Advance(p, choice)) && |r.slots| == |s.slots|
    ensures Enabled(m, Advance(p, choice)) && r == Apply(m, Advance(p, choice))
    ensures HandReady(r, p, k + 1) && HandedOver(r, p, k + 1) == HandedOver(s, p, k)
  {
    m := Apply(s, Advance(p, choice));
    r := Apply(m, Advance(p, choice));
    assert HasChild(s, p, k);
    var a, b := HandedOver(r, p, k + 1), HandedOver(s, p, k);
    assert a.slots == b.slots;
  }

  lemma HandEnds(s: Sys, p: nat, choice: bool)
    requires HandReady(s, p, |s.slots|)
    ensures Enabled(s, Advance(p, choice)) && Apply(s, Advance(p, choice)) == HandedOver(s, p, |s.slots|)
  {
    assert !HasChild(s, p, |s.slots|);
    var a, b := Apply(s, Advance(p, choice)), HandedOver(s, p, |s.slots|);
    assert a.slots == b.slots;
  }

  lemma {:induction false} HandRuns(s: Sys, p: nat, k: nat, choice: bool) returns (n: nat)
    requires HandReady(s, p, k)
    ensures Leads(s, Moves(p, n, choice), HandedOver(s, p, k))
    decreases |s.slots| - k
  {
    hide Leads;
    hide Enabled;
    hide Apply;
    hide HandedOver;
    var r := HandedOver(s, p, k);
    if k == |s.slots| {
      n := 0;
      HandEnds(s, p, choice);
      MovesNone(r, p, choice);
    } else if s.slots[k].parent != Some(p) {
      var m := HandPast(s, p, k, choice);
      n := HandRuns(m, p, k + 1, choice);
    } else {
      var m, u := HandOne(s, p, k, choice);
      n := HandRuns(u, p, k + 1, choice);
      MovesMore(m, p, n, choice, r);
      n := n + 1;
    }
    MovesMore(s, p, n, choice, r);
    n := n + 1;
  }

  /** kexit: p is a zombie on its way off its CPU, its children are init's, and init, if it
      got any, and p's parent are awake. */
  ghost function Exited(s: Sys, p: nat): (r: Sys)
    requires p < |s.slots|
  {
    s.(slots := seq(|s.slots|, j requires 0 <= j < |s.slots| =>
         if j == p then s.slots[p].(pc := Off, state := Zombie, switching := true)
         else if s.slots[p].parent == Some(j) then Roused(Handed(s, p, 0, j))
         else Handed(s, p, 0, j)),
       exited := s.exited + [s.slots[p].pid], waitLock := None)
  }

  /** The end of kexit. */
  lemma ExitDone(s: Sys, m: Sys, p: nat, choice: bool) returns (r: Sys)
    requires 0 < p < |s.slots| && s.slots[p].state == Running && m == HandedOver(s, p, 0)
    requires s.slots[p].parent != Some(p)
    ensures Enabled(m, Advance(p, choice)) && r == Apply(m, Advance(p, choice))
    ensures Enabled(r, Advance(p, choice)) && Apply(r, Advance(p, choice)) == Exited(s, p)
  {
    r := Apply(m, Advance(p, choice));
    var a, b := Apply(r, Advance(p, choice)), Exited(s, p);
    assert a.slots == b.slots;
  }

  lemma ExitBegins(s: Sys, p: nat, choice: bool) returns (a: Sys, b: Sys)
    requires Inv(s) && Ready(s, p) && p != 0
    ensures Enabled(s, Exit(p)) && a == Apply(s, Exit(p))
    ensures Enabled(a, Advance(p, choice)) && b == Apply(a, Advance(p, choice))
    ensures HandReady(b, p, 0) && |b.slots| == |s.slots| && Exited(b, p) == Exited(s, p)
  {
    NotOwnChild(s, p);
    a := Apply(s, Exit(p));
    b := Apply(a, Advance(p, choice));
    SameScan(s, b, p, 0);
    hide HasChild;
    var x, y := Exited(b, p), Exited(s, p);
    assert x.slots == y.slots;
  }

  lemma ExitGoes(s: Sys, p: nat, choice: bool) returns (n: nat)
    requires Inv(s) && Ready(s, p) && p != 0
    ensures Leads(s, [Exit(p)] + Moves(p, n, choice), Exited(s, p))
  {
    hide Leads;
    hide Enabled;
    hide Apply;
    hide Inv;
    hide Exited;
    hide HandedOver;
    var a, b := ExitBegins(s, p, choice);
    var m := HandedOver(b, p, 0);
    var k := HandRuns(b, p, 0, choice);
    var c := ExitDone(b, m, p, choice);
    var r := Exited(s, p);
    MovesNone(r, p, choice);
    MovesMore(c, p, 0, choice, r);
    MovesMore(m, p, 1, choice, r);
    LeadsTrans(b, Moves(p, k, choice), m, Moves(p, 2, choice), r);
    assert Moves(p, k, choice) + Moves(p, 2, choice) == Moves(p, k + 2, choice);
    MovesMore(a, p, k + 2, choice, r);
    n := k + 3;
    LeadsOne(s, Exit(p));
    LeadsTrans(s, [Exit(p)], a, Moves(p, n, choice), r);
  }

  /** kexit, from any state of any run. */
  lemma ExitRuns(s: Sys, size: nat, run: seq<Step>, p: nat, choice: bool) returns (n: nat)
    requires Reachable(s, size, run) && Ready(s, p) && p != 0
    ensures Leads(s, [Exit(p)] + Moves(p, n, choice), Exited(s, p))
  {
    hide Inv;
    hide Leads;
    hide Exited;
    RunInv(s, size, run);
    n := ExitGoes(s, p, choice);
  }

  // ---------- together ----------

  lemma {:induction false} LeadsInv(s: Sys, run: seq<Step>, r: Sys)
    requires Inv(s) && Leads(s, run, r)
    ensures Inv(r)
  {
    hide Inv;
    hide Possible;
    hide After;
    AfterInv(s, run);
  }

  /** A process asleep in kwait has no exited child. */
  lemma NoneExited(s: Sys, q: nat)
    requires Inv(s) && q < |s.slots| && s.slots[q].state == Sleeping && s.waitLock == None
    ensures s.slots[q].pc == WaitAsleep
    ensures forall i :: 0 <= i < |s.slots| && s.slots[i].parent == Some(q) ==> s.slots[i].state != Zombie
  {
    assert StateOk(s.slots[q]);
    forall i | 0 <= i < |s.slots| && s.slots[i].parent == Some(q)
      ensures s.slots[i].state != Zombie
    {
      assert SlotOk(s, i);
    }
  }

  /** q's turn after its child p has exited and left its CPU. */
  lemma WokenParent(s: Sys, p: nat, q: nat) returns (a: Sys, b: Sys)
    requires Inv(s) && Ready(s, p) && p != 0 && q < |s.slots| && s.slots[p].parent == Some(q)
             && s.slots[q].state == Sleeping
    requires q != 0 || forall j :: 0 <= j < |s.slots| && s.slots[j].parent == Some(p) ==> s.slots[j].state != Zombie
    ensures var z := Exited(s, p);
            Enabled(z, SwitchOut(p)) && a == Apply(z, SwitchOut(p)) && Enabled(a, Run(q)) && b == Apply(a, Run(q))
    ensures |b.slots| == |s.slots| && b.slots[q].pc == WaitWant && b.slots[q].state == Running && b.waitLock == None
    ensures FirstZombie(b, q, 0) == p && !b.slots[p].switching && p != q
    ensures b.slots[p].pid == s.slots[p].pid && b.reaped == s.reaped && b.exited == s.exited + [s.slots[p].pid]
  {
    NoneExited(s, q);
    hide Inv;
    hide HasChild;
    var z := Exited(s, p);
    a := Apply(z, SwitchOut(p));
    b := Apply(a, Run(q));
    forall j | 0 <= j < |s.slots| && j != p && b.slots[j].parent == Some(q)
      ensures b.slots[j].state != Zombie
    {
      assert z.slots[j].parent == b.slots[j].parent;
    }
    OnlyZombie(b, q, p);
  }

  lemma OnlyZombie(s: Sys, q: nat, p: nat)
    requires p < |s.slots| && s.slots[p].parent == Some(q) && s.slots[p].state == Zombie
    requires forall j :: 0 <= j < |s.slots| && j != p && s.slots[j].parent == Some(q) ==> s.slots[j].state != Zombie
    ensures FirstZombie(s, q, 0) == p
  {
    var i := FirstZombie(s, q, 0);
    assert i < |s.slots|;
  }

  /** A parent asleep in kwait gets the pid of the child that exits. */
  lemma Reunion(s: Sys, size: nat, run: seq<Step>, p: nat, q: nat) returns (more: seq<Step>, r: Sys)
    requires Reachable(s, size, run) && Ready(s, p) && p != 0
    requires q < |s.slots| && s.slots[p].parent == Some(q) && s.slots[q].state == Sleeping
    requires q != 0 || forall j :: 0 <= j < |s.slots| && s.slots[j].parent == Some(p) ==> s.slots[j].state != Zombie
    ensures Leads(s, more, r) && |r.slots| == |s.slots| && r.waitLock == None
    ensures r.exited == s.exited + [s.slots[p].pid] && r.reaped == s.reaped + [s.slots[p].pid]
    ensures r.slots[p] == Empty && r.slots[q].pc == User && r.slots[q].state == Running
  {
    hide Leads;
    hide Inv;
    hide Enabled;
    hide Apply;
    hide Exited;
    hide Reachable;
    RunInv(s, size, run);
    var z := Exited(s, p);
    var m := ExitGoes(s, p, true);
    var a, b := WokenParent(s, p, q);
    LeadsOne(z, SwitchOut(p));
    LeadsOne(a, ProcTree.Run(q));
    LeadsTrans(z, [SwitchOut(p)], a, [ProcTree.Run(q)], b);
    more := [Exit(p)] + Moves(p, m, true);
    LeadsTrans(s, more, z, [SwitchOut(p)] + [ProcTree.Run(q)], b);
    more := more + ([SwitchOut(p)] + [ProcTree.Run(q)]);
    LeadsInv(s, more, b);
    var n := WaitOn(b, q, true);
    r := Waited(b, q, 0, false, true);
    LeadsTrans(s, more, b, Moves(q, n, true), r);
    more := more + Moves(q, n, true);
  }

  /** A process asleep in kwait that is killed returns, with nothing. */
  lemma KilledReturns(s: Sys, size: nat, run: seq<Step>, q: nat) returns (n: nat)
    requires Reachable(s, size, run) && q < |s.slots| && s.slots[q].state == Sleeping && s.waitLock == None
    ensures Leads(s, [Kill(q)] + [ProcTree.Run(q)] + Moves(q, n, true),
                  Set(s, q, s.slots[q].(pc := User, state := Running)))
  {
    hide Leads;
    hide Inv;
    hide Reachable;
    RunInv(s, size, run);
    NoneExited(s, q);
    var a := Apply(s, Kill(q));
    var b := Apply(a, ProcTree.Run(q));
    var pre := [Kill(q)] + [ProcTree.Run(q)];
    LeadsOne(s, Kill(q));
    LeadsOne(a, ProcTree.Run(q));
    LeadsTrans(s, [Kill(q)], a, [ProcTree.Run(q)], b);
    LeadsInv(s, pre, b);
    n := WaitOn(b, q, true);
    var r := Set(s, q, s.slots[q].(pc := User, state := Running));
    assert Waited(b, q, 0, false, true).slots == r.slots;
    LeadsTrans(s, pre, b, Moves(q, n, true), r);
  }

  /** yield makes the process ready to run, and when it runs again all is as it was. */
  lemma YieldRuns(s: Sys, p: nat)
    requires p < |s.slots| && s.slots[p].pc == User && s.slots[p].state == Running
    ensures Leads(s, [Yield(p)], Set(s, p, s.slots[p].(state := Runnable)))
    ensures Leads(s, [Yield(p)] + [ProcTree.Run(p)], s)
  {
    hide Leads;
    var m := Apply(s, Yield(p));
    assert Apply(m, ProcTree.Run(p)).slots == s.slots;
    LeadsOne(s, Yield(p));
    LeadsOne(m, ProcTree.Run(p));
    LeadsTrans(s, [Yield(p)], m, [ProcTree.Run(p)], s);
  }

  // ---------- whoever else moves ----------

  /** p is in kwait's scan, at slot k. */
  ghost predicate At(s: Sys, p: nat, k: nat) {
    && p < |s.slots| && s.slots[p].state == Running && (s.slots[p].pc.WaitScan? || s.slots[p].pc.WaitLook?)
    && s.slots[p].pc.i == k
  }

  /** How many moves are left to slot i, the last included. */
  ghost function Left(s: Sys, p: nat, k: nat, i: nat): (r: int)
    requires At(s, p, k)
  {
    2 * (i - k) + if s.slots[p].pc.WaitScan? then 2 else 1
  }

  /** No step but p's own moves p or changes the child that it is to find. */
  lemma Undisturbed(s: Sys, st: Step, p: nat, k: nat, i: nat)
    requires Inv(s) && Enabled(s, st) && At(s, p, k) && Reapable(s, p, i)
    requires !(st.Advance? && st.p == p)
    ensures var r := Apply(s, st);
            |r.slots| == |s.slots| && r.slots[p] == s.slots[p] && Reapable(r, p, i)
  {
    assert SlotOk(s, p) && SlotOk(s, st.p) && SlotOk(s, i) && StateOk(s.slots[p]) && StateOk(s.slots[st.p])
           && StateOk(s.slots[i]);
  }

  /** A move of p's, with copyout to succeed, returns an exited child or is nearer to it. */
  lemma Nearer(s: Sys, p: nat, k: nat, i: nat)
    requires Inv(s) && At(s, p, k) && k <= i && Reapable(s, p, i) && Enabled(s, Advance(p, true))
    ensures var r := Apply(s, Advance(p, true));
            || Returns(s, p, r)
            || (exists j :: k <= j <= i && At(r, p, j) && Reapable(r, p, i) && Left(r, p, j, i) < Left(s, p, k, i))
  {
    assert SlotOk(s, p) && StateOk(s.slots[p]) && SlotOk(s, i);
    var r := Apply(s, Advance(p, true));
    if s.slots[p].pc.WaitLook? && s.slots[k].state == Zombie {
      assert SlotOk(s, k);
      assert Reapable(s, p, k);
    } else {
      var j := r.slots[p].pc.i;
      assert At(r, p, j) && Reapable(r, p, i);
    }
  }

  /** From s to r, kwait by p returned a child. */
  ghost predicate Returns(s: Sys, p: nat, r: Sys) {
    exists j: nat :: Reapable(s, p, j) && r.reaped == s.reaped + [s.slots[j].pid] && j < |r.slots|
                     && r.slots[j] == Empty
  }

  /** Somewhere in the run kwait by p returns a child. */
  ghost predicate Finds(s: Sys, p: nat, run: seq<Step>)
    requires Possible(s, run)
    decreases |run|
  {
    run != [] && var r := Apply(s, run[0]);
      (run[0].Advance? && run[0].p == p && Returns(s, p, r)) || Finds(r, p, run[1..])
  }

  function MovesOf(p: nat, run: seq<Step>): (r: nat)
    ensures r <= |run|
  {
    if run == [] then 0 else (if run[0].Advance? && run[0].p == p then 1 else 0) + MovesOf(p, run[1..])
  }

  /** kwait that has an exited child before it returns one when p has moved twice for each
      slot up to it, whatever other processes do in between. */
  lemma {:induction false} WaitReaps(s: Sys, p: nat, k: nat, i: nat, run: seq<Step>)
    requires Inv(s) && At(s, p, k) && k <= i && Reapable(s, p, i) && Possible(s, run)
    requires forall m :: 0 <= m < |run| && run[m].Advance? && run[m].p == p ==> run[m].choice
    requires MovesOf(p, run) >= Left(s, p, k, i)
    ensures Finds(s, p, run)
    decreases |run|
  {
    hide Inv;
    hide Enabled;
    hide Apply;
    hide Returns;
    hide Reapable;
    var st := run[0];
    var r := Apply(s, st);
    StepInv(s, st);
    if st.Advance? && st.p == p {
      Nearer(s, p, k, i);
      if !Returns(s, p, r) {
        var j :| k <= j <= i && At(r, p, j) && Reapable(r, p, i) && Left(r, p, j, i) < Left(s, p, k, i);
        WaitReaps(r, p, j, i, run[1..]);
      }
    } else {
      Undisturbed(s, st, p, k, i);
      WaitReaps(r, p, k, i, run[1..]);
    }
  }
}
