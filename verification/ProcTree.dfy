/** Parents and children (kfork, kexit, kwait and reparent in kernel/proc.c).
    Slot 0 is the init process. Sleeping and waking are atomic here: wait_lock
    guards the condition of every channel, and module Sleep shows for any such
    channel that no wakeup falls between a process's test and its sleep, also when
    wakeup comes before the change, as in kexit. Only process q sleeps on the
    channel that wakeup(q) names. */
module ProcTree {
  import opened Base

  datatype State = Unused | Used | Sleeping | Runnable | Running | Zombie

  /** Where a process stands. */
  datatype Pc =
    | Off                          // the slot runs no code
    | User                         // outside the calls below
    | ForkLook(i: nat)             // allocproc, about to lock slot i
    | ForkWait(i: nat)             // slot i is filled, about to set its parent
    | ForkRun(i: nat)              // about to make the child RUNNABLE
    | ExitWant                     // kexit, about to acquire wait_lock
    | ExitReparent(i: nat)         // reparent, about to look at slot i
    | ExitWakeInit(i: nat)         // gave slot i to init, about to wake init
    | ExitWakeParent
    | ExitSelf                     // about to turn ZOMBIE
    | WaitWant                     // kwait, about to acquire wait_lock
    | WaitScan(i: nat, kids: bool) // about to look at slot i
    | WaitLook(i: nat, kids: bool) // slot i is a child, about to lock it
    | WaitAsleep                   // asleep, or woken and not yet run

  /** A process slot. `maker` is the process that is filling it; `switching`
      says that an exited process has not left its CPU yet. */
  datatype Slot = Slot(pc: Pc, state: State, parent: Option<nat>, pid: nat, maker: Option<nat>, switching: bool)

  /** `exited` and `reaped` list the pids that kexit gave up and kwait returned. */
  datatype Sys = Sys(slots: seq<Slot>, waitLock: Option<nat>, nextpid: nat, exited: seq<nat>, reaped: seq<nat>)

  /** `choice` says whether memory is found, the status is copied out, or the
      process is killed, where that matters. */
  datatype Step =
    | Fork(p: nat)
    | Exit(p: nat)
    | Wait(p: nat)
    | Advance(p: nat, choice: bool)
    | Run(p: nat)
    | SwitchOut(p: nat)
    | Yield(p: nat)
    | Kill(p: nat)

  predicate HoldsWait(pc: Pc) {
    pc.ExitReparent? || pc.ExitWakeInit? || pc.ExitWakeParent? || pc.ExitSelf? || pc.WaitScan? || pc.WaitLook?
  }

  /** The slot that a process is filling. */
  function Filling(pc: Pc): (r: Option<nat>) {
    if pc.ForkWait? || pc.ForkRun? then Some(pc.i) else None
  }

  predicate Enabled(s: Sys, st: Step) {
    && st.p < |s.slots| && var q := s.slots[st.p];
    match st
    case Fork(p) => q.pc == User && q.state == Running
    case Exit(p) => q.pc == User && q.state == Running && p != 0
    case Wait(p) => q.pc == User && q.state == Running
    case Advance(p, _) =>
      && q.state == Running && !q.pc.User?
      && (q.pc.ForkWait? || q.pc.ExitWant? || q.pc.WaitWant? ==> s.waitLock == None)
      && (q.pc.ForkWait? || q.pc.ForkRun? ==> q.pc.i < |s.slots|)
      && (q.pc.WaitLook? ==> q.pc.i < |s.slots| && !s.slots[q.pc.i].switching)
    case Run(p) => q.state == Runnable
    case SwitchOut(p) => q.switching
    case Yield(p) => q.pc == User && q.state == Running
    case Kill(p) => true
  }

  function Set(s: Sys, p: nat, q: Slot): (r: Sys)
    requires p < |s.slots|
  {
    s.(slots := s.slots[p := q])
  }

  function Goto(s: Sys, p: nat, pc: Pc): (r: Sys)
    requires p < |s.slots|
  {
    Set(s, p, s.slots[p].(pc := pc))
  }

  function Roused(q: Slot): (r: Slot) {
    if q.state == Sleeping then q.(state := Runnable) else q
  }

  /** wakeup(i) */
  function Wake(s: Sys, i: nat): (r: Sys) {
    if i < |s.slots| then Set(s, i, Roused(s.slots[i])) else s
  }

  /** A slot after freeproc. */
  const Empty := Slot(Off, Unused, None, 0, None, false)

  predicate InFork(pc: Pc) {
    pc.ForkLook? || pc.ForkWait? || pc.ForkRun?
  }

  function ForkMoved(s: Sys, p: nat, ok: bool): (r: Sys)
    requires Enabled(s, Advance(p, ok)) && InFork(s.slots[p].pc)
  {
    var pc, i := s.slots[p].pc, s.slots[p].pc.i;
    if pc.ForkLook? then
      if i >= |s.slots| then Goto(s, p, User)
      else if s.slots[i].state != Unused then Goto(s, p, ForkLook(i + 1))
      else if !ok then Goto(s, p, User).(nextpid := s.nextpid + 1)
      else Goto(Set(s, i, s.slots[i].(state := Used, pid := s.nextpid, maker := Some(p))), p,
                ForkWait(i)).(nextpid := s.nextpid + 1)
    else if pc.ForkWait? then Goto(Set(s, i, s.slots[i].(parent := Some(p))), p, ForkRun(i))
    else Goto(Set(s, i, s.slots[i].(pc := User, state := Runnable, maker := None)), p, User)
  }

  predicate InExit(pc: Pc) {
    pc.ExitWant? || pc.ExitReparent? || pc.ExitWakeInit? || pc.ExitWakeParent? || pc.ExitSelf?
  }

  function ExitMoved(s: Sys, p: nat): (r: Sys)
    requires p < |s.slots| && InExit(s.slots[p].pc)
  {
    var q, pc := s.slots[p], s.slots[p].pc;
    if pc.ExitWant? then Goto(s, p, ExitReparent(0)).(waitLock := Some(p))
    else if pc.ExitReparent? then
      if pc.i >= |s.slots| then Goto(s, p, ExitWakeParent)
      else if s.slots[pc.i].parent != Some(p) then Goto(s, p, ExitReparent(pc.i + 1))
      else Goto(Set(s, pc.i, s.slots[pc.i].(parent := Some(0))), p, ExitWakeInit(pc.i))
    else if pc.ExitWakeInit? then Goto(Wake(s, 0), p, ExitReparent(pc.i + 1))
    else if pc.ExitWakeParent? then Goto(if q.parent.Some? then Wake(s, q.parent.value) else s, p, ExitSelf)
    else Set(s, p, q.(pc := Off, state := Zombie, switching := true)).(exited := s.exited + [q.pid], waitLock := None)
  }

  predicate InWait(pc: Pc) {
    pc.WaitWant? || pc.WaitScan? || pc.WaitLook?
  }

  function WaitMoved(s: Sys, p: nat, choice: bool): (r: Sys)
    requires Enabled(s, Advance(p, choice)) && InWait(s.slots[p].pc)
  {
    var q, pc := s.slots[p], s.slots[p].pc;
    if pc.WaitWant? then Goto(s, p, WaitScan(0, false)).(waitLock := Some(p))
    else if pc.WaitScan? then
      if pc.i < |s.slots| then Goto(s, p, if s.slots[pc.i].parent == Some(p) then WaitLook(pc.i, pc.kids)
                                    else WaitScan(pc.i + 1, pc.kids))
      else if !pc.kids || choice then Goto(s, p, User).(waitLock := None)
      else Set(s, p, q.(pc := WaitAsleep, state := Sleeping)).(waitLock := None)
    else if s.slots[pc.i].state != Zombie then Goto(s, p, WaitScan(pc.i + 1, true))
    else if !choice then Goto(s, p, User).(waitLock := None)
    else Goto(Set(s, pc.i, Empty), p, User).(waitLock := None, reaped := s.reaped + [s.slots[pc.i].pid])
  }

  function Apply(s: Sys, st: Step): (r: Sys)
    requires Enabled(s, st)
  {
    var q := s.slots[st.p];
    match st
    case Fork(p) => Goto(s, p, ForkLook(0))
    case Exit(p) => Goto(s, p, ExitWant)
    case Wait(p) => Goto(s, p, WaitWant)
    case Advance(p, c) =>
      if InExit(q.pc) then ExitMoved(s, p) else if InWait(q.pc) then WaitMoved(s, p, c)
      else if InFork(q.pc) then ForkMoved(s, p, c) else s
    case Run(p) => Set(s, p, q.(pc := if q.pc.WaitAsleep? then WaitWant else q.pc, state := Running))
    case SwitchOut(p) => Set(s, p, q.(switching := false))
    case Yield(p) => Set(s, p, q.(state := Runnable))
    case Kill(p) => Wake(s, p)
  }

  /** init is running, every other slot is empty. */
  function Init(n: nat): (s: Sys) {
    Sys([Slot(User, Running, None, 1, None, false)] + seq(n, _ => Empty), None, 2, [], [])
  }

  /** Who stands inside the wait_lock section holds it. */
  ghost predicate WaitHeld(s: Sys, p: nat)
    requires p < |s.slots|
  {
    HoldsWait(s.slots[p].pc) ==> s.waitLock == Some(p)
  }

  ghost predicate WaitTaken(s: Sys) {
    s.waitLock.Some? ==> s.waitLock.value < |s.slots| && HoldsWait(s.slots[s.waitLock.value].pc)
  }

  /** State goes with where the process stands. */
  predicate StateOk(q: Slot) {
    && (q.pc.Off? <==> q.state == Unused || q.state == Used || q.state == Zombie)
    && (q.pc.WaitAsleep? ==> q.state == Sleeping || q.state == Runnable)
    && (q.state == Sleeping ==> q.pc.WaitAsleep?)
    && (q.state == Runnable ==> q.pc.WaitAsleep? || q.pc.User?)
    && (q.state == Unused ==> q.parent == None)
    && (q.switching ==> q.state == Zombie)
  }

  /** A slot being filled is being filled by one process. */
  ghost predicate FillOk(s: Sys, p: nat)
    requires p < |s.slots|
  {
    var i := Filling(s.slots[p].pc);
    i.Some? ==>
      && i.value < |s.slots| && i.value != p && s.slots[i.value].state == Used && s.slots[i.value].maker == Some(p)
      && s.slots[i.value].parent == (if s.slots[p].pc.ForkRun? then Some(p) else None)
  }

  ghost predicate MadeOk(s: Sys, i: nat)
    requires i < |s.slots|
  {
    var q := s.slots[i];
    q.state == Used ==> q.maker.Some? && q.maker.value < |s.slots| && Filling(s.slots[q.maker.value].pc) == Some(i)
  }

  ghost predicate InitOk(s: Sys) {
    |s.slots| > 0 && s.slots[0].parent == None && !InExit(s.slots[0].pc) && !s.slots[0].pc.Off?
  }

  /** A parent is a process that has not exited. */
  ghost predicate ParentOk(s: Sys, i: nat)
    requires i < |s.slots|
  {
    var q := s.slots[i].parent;
    q.Some? ==> q.value < |s.slots| && q.value != i && s.slots[i].state != Unused && !s.slots[q.value].pc.Off?
  }

  /** An exiting parent has not passed this child yet. */
  ghost predicate GivenOk(s: Sys, i: nat)
    requires i < |s.slots|
  {
    var q := s.slots[i].parent;
    q.Some? && q.value < |s.slots| ==>
      var pc := s.slots[q.value].pc;
      && !pc.ExitWakeParent? && !pc.ExitSelf?
      && (pc.ExitReparent? ==> pc.i <= i) && (pc.ExitWakeInit? ==> pc.i < i)
  }

  /** A parent sleeps over a zombie child only if the child was just handed to it
      and the wakeup is due. */
  ghost predicate SleepOk(s: Sys, i: nat)
    requires i < |s.slots|
  {
    var q := s.slots[i].parent;
    q.Some? && q.value < |s.slots| && s.slots[i].state == Zombie && s.slots[q.value].state == Sleeping ==>
      q.value == 0 && s.waitLock.Some? && s.waitLock.value < |s.slots|
        && s.slots[s.waitLock.value].pc == ExitWakeInit(i)
  }

  /** A process about to turn zombie has woken its parent. */
  ghost predicate ExitOk(s: Sys, i: nat)
    requires i < |s.slots|
  {
    var q := s.slots[i].parent;
    s.slots[i].pc.ExitSelf? && q.Some? && q.value < |s.slots| ==> s.slots[q.value].state != Sleeping
  }

  /** A child that kwait has passed is no zombie, and kwait has noted it. */
  ghost predicate ScanOk(s: Sys, i: nat)
    requires i < |s.slots|
  {
    var q := s.slots[i].parent;
    q.Some? && q.value < |s.slots| && (s.slots[q.value].pc.WaitScan? || s.slots[q.value].pc.WaitLook?)
      && i < s.slots[q.value].pc.i ==>
      s.slots[i].state != Zombie && s.slots[q.value].pc.kids
  }

  /** kwait looks at children of its own. */
  ghost predicate LookOk(s: Sys, p: nat)
    requires p < |s.slots|
  {
    s.slots[p].pc.WaitLook? ==> s.slots[p].pc.i < |s.slots| && s.slots[s.slots[p].pc.i].parent == Some(p)
  }

  predicate Distinct(a: seq<nat>) {
    forall i, j :: 0 <= i < j < |a| ==> a[i] != a[j]
  }

  /** Every process has a pid, given up exactly when it has exited and not
      returned by kwait yet. */
  ghost predicate PidOk(s: Sys, i: nat)
    requires i < |s.slots|
  {
    var q := s.slots[i];
    q.state != Unused ==> q.pid < s.nextpid && q.pid !in s.reaped && (q.state == Zombie <==> q.pid in s.exited)
  }

  /** Two processes have two pids. */
  ghost predicate PidApart(s: Sys, i: nat, j: nat)
    requires i < |s.slots| && j < |s.slots|
  {
    i != j && s.slots[i].state != Unused && s.slots[j].state != Unused ==> s.slots[i].pid != s.slots[j].pid
  }

  /** No pid is given up or returned twice. */
  ghost predicate TraceOk(s: Sys) {
    && Distinct(s.exited) && Distinct(s.reaped)
    && (forall x :: x in s.reaped ==> x in s.exited)
    && (forall x :: x in s.exited ==> x < s.nextpid)
  }

  ghost predicate StateInv(s: Sys) {
    forall i :: 0 <= i < |s.slots| ==> StateOk(s.slots[i])
  }

  lemma StateFork(s: Sys, p: nat, c: bool, q: nat)
    requires Enabled(s, Advance(p, c)) && InFork(s.slots[p].pc) && q < |s.slots| && StateInv(s)
    requires FillOk(s, p) && ParentOk(s, p)
    ensures StateOk(ForkMoved(s, p, c).slots[q])
  {
  }

  lemma StateExit(s: Sys, p: nat, c: bool, q: nat)
    requires Enabled(s, Advance(p, c)) && InExit(s.slots[p].pc) && q < |s.slots| && StateInv(s)
    requires FillOk(s, p) && ParentOk(s, p)
    ensures StateOk(ExitMoved(s, p).slots[q])
  {
  }

  lemma StateWait(s: Sys, p: nat, c: bool, q: nat)
    requires Enabled(s, Advance(p, c)) && InWait(s.slots[p].pc) && q < |s.slots| && StateInv(s)
    requires FillOk(s, p) && ParentOk(s, p)
    ensures StateOk(WaitMoved(s, p, c).slots[q])
  {
  }

  lemma StateOther(s: Sys, st: Step, q: nat)
    requires Enabled(s, st) && !st.Advance? && q < |s.slots| && StateInv(s)
    requires FillOk(s, st.p) && ParentOk(s, st.p)
    ensures StateOk(Apply(s, st).slots[q])
  {
  }

  lemma WaitHeldFork(s: Sys, p: nat, c: bool, q: nat)
    requires Enabled(s, Advance(p, c)) && InFork(s.slots[p].pc) && q < |s.slots| && StateInv(s)
    requires WaitHeld(s, q) && WaitHeld(s, p)
    ensures WaitHeld(ForkMoved(s, p, c), q)
  {
  }

  lemma WaitHeldExit(s: Sys, p: nat, c: bool, q: nat)
    requires Enabled(s, Advance(p, c)) && InExit(s.slots[p].pc) && q < |s.slots| && StateInv(s)
    requires WaitHeld(s, q) && WaitHeld(s, p)
    ensures WaitHeld(ExitMoved(s, p), q)
  {
  }

  lemma WaitHeldWait(s: Sys, p: nat, c: bool, q: nat)
    requires Enabled(s, Advance(p, c)) && InWait(s.slots[p].pc) && q < |s.slots| && StateInv(s)
    requires WaitHeld(s, q) && WaitHeld(s, p)
    ensures WaitHeld(WaitMoved(s, p, c), q)
  {
  }

  lemma WaitHeldOther(s: Sys, st: Step, q: nat)
    requires Enabled(s, st) && !st.Advance? && q < |s.slots| && StateInv(s)
    requires WaitHeld(s, q) && WaitHeld(s, st.p)
    ensures WaitHeld(Apply(s, st), q)
  {
  }

  lemma FillFork(s: Sys, p: nat, c: bool, q: nat)
    requires Enabled(s, Advance(p, c)) && InFork(s.slots[p].pc) && q < |s.slots| && StateInv(s)
    requires FillOk(s, q) && FillOk(s, p)
    ensures FillOk(ForkMoved(s, p, c), q)
  {
  }

  lemma FillExit(s: Sys, p: nat, c: bool, q: nat)
    requires Enabled(s, Advance(p, c)) && InExit(s.slots[p].pc) && q < |s.slots| && StateInv(s)
    requires FillOk(s, q) && FillOk(s, p)
    ensures FillOk(ExitMoved(s, p), q)
  {
  }

  lemma FillWait(s: Sys, p: nat, c: bool, q: nat)
    requires Enabled(s, Advance(p, c)) && InWait(s.slots[p].pc) && q < |s.slots| && StateInv(s)
    requires FillOk(s, q) && FillOk(s, p)
    ensures FillOk(WaitMoved(s, p, c), q)
  {
  }

  lemma FillOther(s: Sys, st: Step, q: nat)
    requires Enabled(s, st) && !st.Advance? && q < |s.slots| && StateInv(s)
    requires FillOk(s, q) && FillOk(s, st.p)
    ensures FillOk(Apply(s, st), q)
  {
  }

  lemma LookFork(s: Sys, p: nat, c: bool, q: nat)
    requires Enabled(s, Advance(p, c)) && InFork(s.slots[p].pc) && q < |s.slots| && StateInv(s)
    requires LookOk(s, q) && WaitHeld(s, q) && WaitHeld(s, p) && FillOk(s, p)
    ensures LookOk(ForkMoved(s, p, c), q)
  {
  }

  lemma MadeFork(s: Sys, p: nat, c: bool, q: nat)
    requires Enabled(s, Advance(p, c)) && InFork(s.slots[p].pc) && q < |s.slots| && StateInv(s)
    requires MadeOk(s, q) && FillOk(s, p)
    ensures MadeOk(ForkMoved(s, p, c), q)
  {
  }

  lemma LookExit(s: Sys, p: nat, c: bool, q: nat)
    requires Enabled(s, Advance(p, c)) && InExit(s.slots[p].pc) && q < |s.slots| && StateInv(s)
    requires LookOk(s, q) && WaitHeld(s, q) && WaitHeld(s, p) && FillOk(s, p)
    ensures LookOk(ExitMoved(s, p), q)
  {
  }

  lemma MadeExit(s: Sys, p: nat, c: bool, q: nat)
    requires Enabled(s, Advance(p, c)) && InExit(s.slots[p].pc) && q < |s.slots| && StateInv(s)
    requires MadeOk(s, q) && FillOk(s, p)
    ensures MadeOk(ExitMoved(s, p), q)
  {
  }

  lemma LookWait(s: Sys, p: nat, c: bool, q: nat)
    requires Enabled(s, Advance(p, c)) && InWait(s.slots[p].pc) && q < |s.slots| && StateInv(s)
    requires LookOk(s, q) && WaitHeld(s, q) && WaitHeld(s, p) && FillOk(s, p)
    ensures LookOk(WaitMoved(s, p, c), q)
  {
  }

  lemma MadeWait(s: Sys, p: nat, c: bool, q: nat)
    requires Enabled(s, Advance(p, c)) && InWait(s.slots[p].pc) && q < |s.slots| && StateInv(s)
    requires MadeOk(s, q) && FillOk(s, p)
    ensures MadeOk(WaitMoved(s, p, c), q)
  {
  }

  lemma LookOther(s: Sys, st: Step, q: nat)
    requires Enabled(s, st) && !st.Advance? && q < |s.slots| && LookOk(s, q)
    ensures LookOk(Apply(s, st), q)
  {
  }

  lemma MadeOther(s: Sys, st: Step, q: nat)
    requires Enabled(s, st) && !st.Advance? && q < |s.slots| && StateInv(s)
    requires MadeOk(s, q) && FillOk(s, st.p)
    ensures MadeOk(Apply(s, st), q)
  {
  }

  lemma ParentFork(s: Sys, p: nat, c: bool, q: nat)
    requires Enabled(s, Advance(p, c)) && InFork(s.slots[p].pc) && q < |s.slots| && InitOk(s) && StateInv(s)
    requires ParentOk(s, q) && GivenOk(s, q) && FillOk(s, p)
    ensures ParentOk(ForkMoved(s, p, c), q)
  {
  }

  lemma ParentExit(s: Sys, p: nat, c: bool, q: nat)
    requires Enabled(s, Advance(p, c)) && InExit(s.slots[p].pc) && q < |s.slots| && InitOk(s) && StateInv(s)
    requires ParentOk(s, q) && GivenOk(s, q) && FillOk(s, p)
    ensures ParentOk(ExitMoved(s, p), q)
  {
  }

  lemma ParentWait(s: Sys, p: nat, c: bool, q: nat)
    requires Enabled(s, Advance(p, c)) && InWait(s.slots[p].pc) && q < |s.slots| && InitOk(s) && StateInv(s)
    requires ParentOk(s, q) && GivenOk(s, q) && FillOk(s, p)
    ensures ParentOk(WaitMoved(s, p, c), q)
  {
  }

  lemma ParentOther(s: Sys, st: Step, q: nat)
    requires Enabled(s, st) && !st.Advance? && q < |s.slots| && InitOk(s) && StateInv(s)
    requires ParentOk(s, q) && GivenOk(s, q) && FillOk(s, st.p)
    ensures ParentOk(Apply(s, st), q)
  {
  }

  lemma GivenFork(s: Sys, p: nat, c: bool, q: nat)
    requires Enabled(s, Advance(p, c)) && InFork(s.slots[p].pc) && q < |s.slots| && InitOk(s) && StateInv(s)
    requires ParentOk(s, q) && GivenOk(s, q) && FillOk(s, p)
    ensures GivenOk(ForkMoved(s, p, c), q)
  {
  }

  lemma GivenExit(s: Sys, p: nat, c: bool, q: nat)
    requires Enabled(s, Advance(p, c)) && InExit(s.slots[p].pc) && q < |s.slots| && InitOk(s) && StateInv(s)
    requires ParentOk(s, q) && GivenOk(s, q) && FillOk(s, p)
    ensures GivenOk(ExitMoved(s, p), q)
  {
  }

  lemma GivenWait(s: Sys, p: nat, c: bool, q: nat)
    requires Enabled(s, Advance(p, c)) && InWait(s.slots[p].pc) && q < |s.slots| && InitOk(s) && StateInv(s)
    requires ParentOk(s, q) && GivenOk(s, q) && FillOk(s, p)
    ensures GivenOk(WaitMoved(s, p, c), q)
  {
  }

  lemma GivenOther(s: Sys, st: Step, q: nat)
    requires Enabled(s, st) && !st.Advance? && q < |s.slots| && InitOk(s) && StateInv(s)
    requires ParentOk(s, q) && GivenOk(s, q) && FillOk(s, st.p)
    ensures GivenOk(Apply(s, st), q)
  {
  }

  lemma SleepFork(s: Sys, p: nat, c: bool, q: nat)
    requires Enabled(s, Advance(p, c)) && InFork(s.slots[p].pc) && q < |s.slots| && InitOk(s) && WaitTaken(s)
             && StateInv(s)
    requires SleepOk(s, q) && ExitOk(s, q) && ScanOk(s, q) && WaitHeld(s, p) && ParentOk(s, q) && FillOk(s, p)
    ensures SleepOk(ForkMoved(s, p, c), q)
  {
  }

  lemma SleepExit(s: Sys, p: nat, c: bool, q: nat)
    requires Enabled(s, Advance(p, c)) && InExit(s.slots[p].pc) && q < |s.slots| && InitOk(s) && WaitTaken(s)
             && StateInv(s)
    requires SleepOk(s, q) && ExitOk(s, q) && ScanOk(s, q) && WaitHeld(s, p) && ParentOk(s, q) && FillOk(s, p)
    ensures SleepOk(ExitMoved(s, p), q)
  {
  }

  lemma SleepWait(s: Sys, p: nat, c: bool, q: nat)
    requires Enabled(s, Advance(p, c)) && InWait(s.slots[p].pc) && q < |s.slots| && InitOk(s) && WaitTaken(s)
             && StateInv(s)
    requires SleepOk(s, q) && ExitOk(s, q) && ScanOk(s, q) && WaitHeld(s, p) && ParentOk(s, q) && FillOk(s, p)
    ensures SleepOk(WaitMoved(s, p, c), q)
  {
  }

  lemma SleepOther(s: Sys, st: Step, q: nat)
    requires Enabled(s, st) && !st.Advance? && q < |s.slots| && InitOk(s) && WaitTaken(s) && StateInv(s)
    requires SleepOk(s, q) && ExitOk(s, q) && ScanOk(s, q) && WaitHeld(s, st.p) && ParentOk(s, q) && FillOk(s, st.p)
    ensures SleepOk(Apply(s, st), q)
  {
  }

  lemma WokeFork(s: Sys, p: nat, c: bool, q: nat)
    requires Enabled(s, Advance(p, c)) && InFork(s.slots[p].pc) && q < |s.slots| && InitOk(s) && StateInv(s)
    requires ExitOk(s, q) && WaitHeld(s, p) && WaitHeld(s, q) && ParentOk(s, q) && FillOk(s, p)
    ensures ExitOk(ForkMoved(s, p, c), q)
  {
  }

  lemma WokeExit(s: Sys, p: nat, c: bool, q: nat)
    requires Enabled(s, Advance(p, c)) && InExit(s.slots[p].pc) && q < |s.slots| && InitOk(s) && StateInv(s)
    requires ExitOk(s, q) && WaitHeld(s, p) && WaitHeld(s, q) && ParentOk(s, q) && FillOk(s, p)
    ensures ExitOk(ExitMoved(s, p), q)
  {
  }

  lemma WokeWait(s: Sys, p: nat, c: bool, q: nat)
    requires Enabled(s, Advance(p, c)) && InWait(s.slots[p].pc) && q < |s.slots| && InitOk(s) && StateInv(s)
    requires ExitOk(s, q) && WaitHeld(s, p) && WaitHeld(s, q) && ParentOk(s, q) && FillOk(s, p)
    ensures ExitOk(WaitMoved(s, p, c), q)
  {
  }

  lemma WokeOther(s: Sys, st: Step, q: nat)
    requires Enabled(s, st) && !st.Advance? && q < |s.slots| && InitOk(s) && StateInv(s)
    requires ExitOk(s, q) && WaitHeld(s, st.p) && WaitHeld(s, q) && ParentOk(s, q) && FillOk(s, st.p)
    ensures ExitOk(Apply(s, st), q)
  {
  }

  lemma ScanFork(s: Sys, p: nat, c: bool, q: nat)
    requires Enabled(s, Advance(p, c)) && InFork(s.slots[p].pc) && q < |s.slots| && InitOk(s) && StateInv(s)
             && WaitHeld(s, 0)
    requires ScanOk(s, q) && WaitHeld(s, p) && ParentOk(s, q) && FillOk(s, p)
             && (s.slots[q].parent.Some? ==> WaitHeld(s, s.slots[q].parent.value))
    ensures ScanOk(ForkMoved(s, p, c), q)
  {
  }

  lemma ScanExit(s: Sys, p: nat, c: bool, q: nat)
    requires Enabled(s, Advance(p, c)) && InExit(s.slots[p].pc) && q < |s.slots| && InitOk(s) && StateInv(s)
             && WaitHeld(s, 0)
    requires ScanOk(s, q) && WaitHeld(s, p) && ParentOk(s, q) && FillOk(s, p)
             && (s.slots[q].parent.Some? ==> WaitHeld(s, s.slots[q].parent.value))
    ensures ScanOk(ExitMoved(s, p), q)
  {
  }

  lemma ScanWait(s: Sys, p: nat, c: bool, q: nat)
    requires Enabled(s, Advance(p, c)) && InWait(s.slots[p].pc) && q < |s.slots| && InitOk(s) && StateInv(s)
             && WaitHeld(s, 0)
    requires ScanOk(s, q) && WaitHeld(s, p) && ParentOk(s, q) && FillOk(s, p)
             && (s.slots[q].parent.Some? ==> WaitHeld(s, s.slots[q].parent.value))
    ensures ScanOk(WaitMoved(s, p, c), q)
  {
  }

  lemma ScanOther(s: Sys, st: Step, q: nat)
    requires Enabled(s, st) && !st.Advance? && q < |s.slots| && InitOk(s) && StateInv(s) && WaitHeld(s, 0)
    requires ScanOk(s, q) && WaitHeld(s, st.p) && ParentOk(s, q) && FillOk(s, st.p)
             && (s.slots[q].parent.Some? ==> WaitHeld(s, s.slots[q].parent.value))
    ensures ScanOk(Apply(s, st), q)
  {
  }

  lemma BaseFork(s: Sys, p: nat, c: bool)
    requires Enabled(s, Advance(p, c)) && InFork(s.slots[p].pc) && InitOk(s) && WaitTaken(s) && StateInv(s)
             && WaitHeld(s, p) && FillOk(s, p)
    ensures InitOk(ForkMoved(s, p, c)) && WaitTaken(ForkMoved(s, p, c))
  {
  }

  lemma BaseExit(s: Sys, p: nat, c: bool)
    requires Enabled(s, Advance(p, c)) && InExit(s.slots[p].pc) && InitOk(s) && WaitTaken(s) && StateInv(s)
             && WaitHeld(s, p) && FillOk(s, p)
    ensures InitOk(ExitMoved(s, p)) && WaitTaken(ExitMoved(s, p))
  {
  }

  lemma BaseWait(s: Sys, p: nat, c: bool)
    requires Enabled(s, Advance(p, c)) && InWait(s.slots[p].pc) && InitOk(s) && WaitTaken(s) && StateInv(s)
             && WaitHeld(s, p) && FillOk(s, p)
    ensures InitOk(WaitMoved(s, p, c)) && WaitTaken(WaitMoved(s, p, c))
  {
  }

  lemma BaseOther(s: Sys, st: Step)
    requires Enabled(s, st) && !st.Advance? && InitOk(s) && WaitTaken(s) && StateInv(s) && WaitHeld(s, st.p)
             && FillOk(s, st.p)
    ensures InitOk(Apply(s, st)) && WaitTaken(Apply(s, st))
  {
  }

  lemma PidFork(s: Sys, p: nat, c: bool, q: nat)
    requires Enabled(s, Advance(p, c)) && InFork(s.slots[p].pc) && q < |s.slots| && StateInv(s) && FillOk(s, p)
             && TraceOk(s)
    requires PidOk(s, q) && PidOk(s, p) && PidApart(s, p, q)
    ensures PidOk(ForkMoved(s, p, c), q)
  {
  }

  lemma ApartFork(s: Sys, p: nat, c: bool, q: nat, r: nat)
    requires Enabled(s, Advance(p, c)) && InFork(s.slots[p].pc) && q < |s.slots| && r < |s.slots| && StateInv(s)
             && FillOk(s, p)
    requires PidApart(s, q, r) && PidOk(s, q) && PidOk(s, r)
    ensures PidApart(ForkMoved(s, p, c), q, r)
  {
  }

  lemma TraceFork(s: Sys, p: nat, c: bool)
    requires Enabled(s, Advance(p, c)) && InFork(s.slots[p].pc) && StateInv(s) && TraceOk(s) && PidOk(s, p)
    ensures TraceOk(ForkMoved(s, p, c))
  {
  }

  lemma PidExit(s: Sys, p: nat, c: bool, q: nat)
    requires Enabled(s, Advance(p, c)) && InExit(s.slots[p].pc) && q < |s.slots| && StateInv(s) && FillOk(s, p)
             && TraceOk(s)
    requires PidOk(s, q) && PidOk(s, p) && PidApart(s, p, q)
    ensures PidOk(ExitMoved(s, p), q)
  {
  }

  lemma ApartExit(s: Sys, p: nat, c: bool, q: nat, r: nat)
    requires Enabled(s, Advance(p, c)) && InExit(s.slots[p].pc) && q < |s.slots| && r < |s.slots| && StateInv(s)
             && FillOk(s, p)
    requires PidApart(s, q, r) && PidOk(s, q) && PidOk(s, r)
    ensures PidApart(ExitMoved(s, p), q, r)
  {
  }

  lemma TraceExit(s: Sys, p: nat, c: bool)
    requires Enabled(s, Advance(p, c)) && InExit(s.slots[p].pc) && StateInv(s) && TraceOk(s) && PidOk(s, p)
    ensures TraceOk(ExitMoved(s, p))
  {
  }

  lemma PidWait(s: Sys, p: nat, c: bool, q: nat)
    requires Enabled(s, Advance(p, c)) && InWait(s.slots[p].pc) && q < |s.slots| && StateInv(s) && FillOk(s, p)
             && TraceOk(s)
    requires PidOk(s, q) && PidOk(s, p) && PidApart(s, p, q)
             && (s.slots[p].pc.WaitLook? ==> PidApart(s, s.slots[p].pc.i, q))
    ensures PidOk(WaitMoved(s, p, c), q)
  {
  }

  lemma ApartWait(s: Sys, p: nat, c: bool, q: nat, r: nat)
    requires Enabled(s, Advance(p, c)) && InWait(s.slots[p].pc) && q < |s.slots| && r < |s.slots| && StateInv(s)
             && FillOk(s, p)
    requires PidApart(s, q, r) && PidOk(s, q) && PidOk(s, r)
    ensures PidApart(WaitMoved(s, p, c), q, r)
  {
  }

  lemma TraceWait(s: Sys, p: nat, c: bool)
    requires Enabled(s, Advance(p, c)) && InWait(s.slots[p].pc) && StateInv(s) && TraceOk(s) && PidOk(s, p)
    requires s.slots[p].pc.WaitLook? ==> PidOk(s, s.slots[p].pc.i)
    ensures TraceOk(WaitMoved(s, p, c))
  {
  }

  lemma PidOther(s: Sys, st: Step, q: nat)
    requires Enabled(s, st) && !st.Advance? && q < |s.slots| && PidOk(s, q)
    ensures PidOk(Apply(s, st), q)
  {
  }

  lemma ApartOther(s: Sys, st: Step, q: nat, r: nat)
    requires Enabled(s, st) && !st.Advance? && q < |s.slots| && r < |s.slots| && PidApart(s, q, r)
    ensures PidApart(Apply(s, st), q, r)
  {
  }

  ghost predicate SlotOk(s: Sys, i: nat)
    requires i < |s.slots|
  {
    && WaitHeld(s, i) && FillOk(s, i) && MadeOk(s, i) && ParentOk(s, i) && GivenOk(s, i)
    && SleepOk(s, i) && ExitOk(s, i) && ScanOk(s, i) && LookOk(s, i) && PidOk(s, i)
  }

  ghost predicate Inv(s: Sys) {
    && InitOk(s) && WaitTaken(s) && StateInv(s) && TraceOk(s)
    && (forall i :: 0 <= i < |s.slots| ==> SlotOk(s, i))
    && (forall i, j :: 0 <= i < |s.slots| && 0 <= j < |s.slots| ==> PidApart(s, i, j))
  }

  lemma ForkKeeps(s: Sys, p: nat, c: bool)
    requires Enabled(s, Advance(p, c)) && InFork(s.slots[p].pc) && Inv(s)
    ensures Inv(ForkMoved(s, p, c))
  {
    hide StateOk;
    hide WaitTaken;
    hide WaitHeld;
    hide FillOk;
    hide MadeOk;
    hide GivenOk;
    hide SleepOk;
    hide ExitOk;
    hide ScanOk;
    hide LookOk;
    hide PidOk;
    hide PidApart;
    hide TraceOk;
    hide ForkMoved;
    hide InFork;
    var r := ForkMoved(s, p, c);
    ShapeFork(s, p, c);
    assert SlotOk(s, p) && SlotOk(s, 0);
    BaseFork(s, p, c);
    TraceFork(s, p, c);
    forall q | 0 <= q < |s.slots|
      ensures StateOk(r.slots[q]) && SlotOk(r, q)
    {
      assert SlotOk(s, q) && PidApart(s, p, q) && (s.slots[q].parent.Some? ==> SlotOk(s, s.slots[q].parent.value));
      StateFork(s, p, c, q);
      WaitHeldFork(s, p, c, q);
      FillFork(s, p, c, q);
      LookFork(s, p, c, q);
      MadeFork(s, p, c, q);
      ParentFork(s, p, c, q);
      GivenFork(s, p, c, q);
      SleepFork(s, p, c, q);
      WokeFork(s, p, c, q);
      ScanFork(s, p, c, q);
      PidFork(s, p, c, q);
    }
    forall i, j | 0 <= i < |s.slots| && 0 <= j < |s.slots|
      ensures PidApart(r, i, j)
    {
      assert SlotOk(s, i) && SlotOk(s, j) && PidApart(s, i, j);
      ApartFork(s, p, c, i, j);
    }
  }

  lemma ShapeFork(s: Sys, p: nat, c: bool)
    requires Enabled(s, Advance(p, c)) && InFork(s.slots[p].pc)
    ensures |ForkMoved(s, p, c).slots| == |s.slots|
  {
  }

  lemma ExitKeeps(s: Sys, p: nat, c: bool)
    requires Enabled(s, Advance(p, c)) && InExit(s.slots[p].pc) && Inv(s)
    ensures Inv(ExitMoved(s, p))
  {
    hide StateOk;
    hide WaitTaken;
    hide WaitHeld;
    hide FillOk;
    hide MadeOk;
    hide GivenOk;
    hide SleepOk;
    hide ExitOk;
    hide ScanOk;
    hide LookOk;
    hide PidOk;
    hide PidApart;
    hide TraceOk;
    hide ExitMoved;
    hide InExit;
    var r := ExitMoved(s, p);
    ShapeExit(s, p, c);
    assert SlotOk(s, p) && SlotOk(s, 0);
    BaseExit(s, p, c);
    TraceExit(s, p, c);
    forall q | 0 <= q < |s.slots|
      ensures StateOk(r.slots[q]) && SlotOk(r, q)
    {
      assert SlotOk(s, q) && PidApart(s, p, q) && (s.slots[q].parent.Some? ==> SlotOk(s, s.slots[q].parent.value));
      StateExit(s, p, c, q);
      WaitHeldExit(s, p, c, q);
      FillExit(s, p, c, q);
      LookExit(s, p, c, q);
      MadeExit(s, p, c, q);
      ParentExit(s, p, c, q);
      GivenExit(s, p, c, q);
      SleepExit(s, p, c, q);
      WokeExit(s, p, c, q);
      ScanExit(s, p, c, q);
      PidExit(s, p, c, q);
    }
    forall i, j | 0 <= i < |s.slots| && 0 <= j < |s.slots|
      ensures PidApart(r, i, j)
    {
      assert SlotOk(s, i) && SlotOk(s, j) && PidApart(s, i, j);
      ApartExit(s, p, c, i, j);
    }
  }

  lemma ShapeExit(s: Sys, p: nat, c: bool)
    requires Enabled(s, Advance(p, c)) && InExit(s.slots[p].pc)
    ensures |ExitMoved(s, p).slots| == |s.slots|
  {
  }

  lemma WaitKeeps(s: Sys, p: nat, c: bool)
    requires Enabled(s, Advance(p, c)) && InWait(s.slots[p].pc) && Inv(s)
    ensures Inv(WaitMoved(s, p, c))
  {
    hide StateOk;
    hide WaitTaken;
    hide WaitHeld;
    hide FillOk;
    hide MadeOk;
    hide GivenOk;
    hide SleepOk;
    hide ExitOk;
    hide ScanOk;
    hide LookOk;
    hide PidOk;
    hide PidApart;
    hide TraceOk;
    hide WaitMoved;
    hide InWait;
    var r := WaitMoved(s, p, c);
    ShapeWait(s, p, c);
    assert SlotOk(s, p) && SlotOk(s, 0);
    BaseWait(s, p, c);
    assert s.slots[p].pc.WaitLook? ==> SlotOk(s, s.slots[p].pc.i);
    TraceWait(s, p, c);
    forall q | 0 <= q < |s.slots|
      ensures StateOk(r.slots[q]) && SlotOk(r, q)
    {
      assert SlotOk(s, q) && PidApart(s, p, q) && (s.slots[q].parent.Some? ==> SlotOk(s, s.slots[q].parent.value));
      assert s.slots[p].pc.WaitLook? ==> PidApart(s, s.slots[p].pc.i, q);
      StateWait(s, p, c, q);
      WaitHeldWait(s, p, c, q);
      FillWait(s, p, c, q);
      LookWait(s, p, c, q);
      MadeWait(s, p, c, q);
      ParentWait(s, p, c, q);
      GivenWait(s, p, c, q);
      SleepWait(s, p, c, q);
      WokeWait(s, p, c, q);
      ScanWait(s, p, c, q);
      PidWait(s, p, c, q);
    }
    forall i, j | 0 <= i < |s.slots| && 0 <= j < |s.slots|
      ensures PidApart(r, i, j)
    {
      assert SlotOk(s, i) && SlotOk(s, j) && PidApart(s, i, j);
      ApartWait(s, p, c, i, j);
    }
  }

  lemma ShapeWait(s: Sys, p: nat, c: bool)
    requires Enabled(s, Advance(p, c)) && InWait(s.slots[p].pc)
    ensures |WaitMoved(s, p, c).slots| == |s.slots|
  {
  }

  lemma OtherKeeps(s: Sys, st: Step)
    requires Enabled(s, st) && !st.Advance? && Inv(s)
    ensures Inv(Apply(s, st))
  {
    hide StateOk;
    hide WaitTaken;
    hide WaitHeld;
    hide FillOk;
    hide MadeOk;
    hide GivenOk;
    hide SleepOk;
    hide ExitOk;
    hide ScanOk;
    hide LookOk;
    hide PidOk;
    hide PidApart;
    hide Apply;
    var r := Apply(s, st);
    ShapeOther(s, st);
    assert SlotOk(s, st.p) && SlotOk(s, 0);
    BaseOther(s, st);
    forall q | 0 <= q < |s.slots|
      ensures StateOk(r.slots[q]) && SlotOk(r, q)
    {
      assert SlotOk(s, q) && (s.slots[q].parent.Some? ==> SlotOk(s, s.slots[q].parent.value));
      StateOther(s, st, q);
      WaitHeldOther(s, st, q);
      FillOther(s, st, q);
      LookOther(s, st, q);
      MadeOther(s, st, q);
      ParentOther(s, st, q);
      GivenOther(s, st, q);
      SleepOther(s, st, q);
      WokeOther(s, st, q);
      ScanOther(s, st, q);
      PidOther(s, st, q);
    }
    forall i, j | 0 <= i < |s.slots| && 0 <= j < |s.slots|
      ensures PidApart(r, i, j)
    {
      assert PidApart(s, i, j);
      ApartOther(s, st, i, j);
    }
  }

  lemma ShapeOther(s: Sys, st: Step)
    requires Enabled(s, st) && !st.Advance?
    ensures var r := Apply(s, st);
            |r.slots| == |s.slots| && r.exited == s.exited && r.reaped == s.reaped && r.nextpid == s.nextpid
  {
  }

  /** Every step keeps the invariant. */
  lemma StepInv(s: Sys, st: Step)
    requires Enabled(s, st) && Inv(s)
    ensures Inv(Apply(s, st))
  {
    hide Inv;
    hide ForkMoved;
    hide ExitMoved;
    hide WaitMoved;
    if !st.Advance? {
      OtherKeeps(s, st);
    } else if InFork(s.slots[st.p].pc) {
      ForkKeeps(s, st.p, st.choice);
    } else if InExit(s.slots[st.p].pc) {
      ExitKeeps(s, st.p, st.choice);
    } else if InWait(s.slots[st.p].pc) {
      WaitKeeps(s, st.p, st.choice);
    }
  }

  lemma InitInv(n: nat)
    ensures Inv(Init(n))
  {
  }

  /** The steps of a run can be taken one after the other. */
  ghost predicate Possible(s: Sys, run: seq<Step>)
    decreases |run|
  {
    run == [] || (Enabled(s, run[0]) && Possible(Apply(s, run[0]), run[1..]))
  }

  ghost function After(s: Sys, run: seq<Step>): (r: Sys)
    requires Possible(s, run)
    decreases |run|
  {
    if run == [] then s else After(Apply(s, run[0]), run[1..])
  }

  lemma {:induction false} AfterInv(s: Sys, run: seq<Step>)
    requires Inv(s) && Possible(s, run)
    ensures Inv(After(s, run))
    decreases |run|
  {
    if run != [] {
      StepInv(s, run[0]);
      AfterInv(Apply(s, run[0]), run[1..]);
    }
  }

  /** s is where a run of n + 1 slots leads. */
  ghost predicate Reachable(s: Sys, n: nat, run: seq<Step>) {
    Possible(Init(n), run) && s == After(Init(n), run)
  }

  lemma RunInv(s: Sys, n: nat, run: seq<Step>)
    requires Reachable(s, n, run)
    ensures Inv(s)
  {
    InitInv(n);
    AfterInv(Init(n), run);
  }

  /** No process has an exited process or an empty slot for a parent, */
  lemma LiveParent(s: Sys, n: nat, run: seq<Step>, i: nat)
    requires Reachable(s, n, run) && i < |s.slots| && s.slots[i].parent.Some?
    ensures s.slots[i].parent.value < |s.slots|
    ensures var q := s.slots[s.slots[i].parent.value].state; q == Sleeping || q == Runnable || q == Running
  {
    RunInv(s, n, run);
    assert SlotOk(s, i);
    assert StateOk(s.slots[s.slots[i].parent.value]);
  }

  /** and, whenever wait_lock is free, none sleeps in kwait while it has a zombie
      child. */
  lemma NoSleepOverZombie(s: Sys, n: nat, run: seq<Step>, i: nat, q: nat)
    requires Reachable(s, n, run) && i < |s.slots| && q < |s.slots| && s.waitLock == None
    requires s.slots[i].parent == Some(q) && s.slots[i].state == Zombie
    ensures s.slots[q].state != Sleeping
  {
    RunInv(s, n, run);
    assert SlotOk(s, i);
  }

  /** Each exit is returned by one kwait at most, and kwait returns nothing else. */
  lemma ReapedOnce(s: Sys, n: nat, run: seq<Step>)
    requires Reachable(s, n, run)
    ensures Distinct(s.reaped) && Distinct(s.exited) && forall x :: x in s.reaped ==> x in s.exited
  {
    RunInv(s, n, run);
  }

  /** Processes have pids of their own, none of a process that was reaped. */
  lemma PidsDistinct(s: Sys, n: nat, run: seq<Step>, i: nat, j: nat)
    requires Reachable(s, n, run) && i < |s.slots| && j < |s.slots| && s.slots[i].state != Unused
             && s.slots[j].state != Unused
    ensures s.slots[i].pid == s.slots[j].pid ==> i == j
    ensures s.slots[i].pid !in s.reaped
  {
    RunInv(s, n, run);
    assert PidApart(s, i, j) && SlotOk(s, i);
  }

  /** When kwait gives up for want of children, it has none. */
  lemma NoChildren(s: Sys, n: nat, run: seq<Step>, p: nat, i: nat)
    requires Reachable(s, n, run) && p < |s.slots| && i < |s.slots|
    requires s.slots[p].pc.WaitScan? && s.slots[p].pc.i >= |s.slots| && !s.slots[p].pc.kids
    ensures s.slots[i].parent != Some(p)
  {
    RunInv(s, n, run);
    assert SlotOk(s, i);
  }

  /** Slot i holds a child of p that has exited, has left its CPU and was returned
      by no kwait yet. */
  ghost predicate Reapable(s: Sys, p: nat, i: nat) {
    && i < |s.slots| && s.slots[i].parent == Some(p) && s.slots[i].state == Zombie && !s.slots[i].switching
    && s.slots[i].pid in s.exited && s.slots[i].pid !in s.reaped
  }

  /** What kwait returns, in any run: the pid of one such child of the caller,
      whose slot, and no other but the caller's, changes and is empty. */
  lemma ReapsChild(s: Sys, n: nat, run: seq<Step>, st: Step) returns (i: nat)
    requires Reachable(s, n, run) && Enabled(s, st) && Apply(s, st).reaped != s.reaped
    ensures Reapable(s, st.p, i) && i != st.p
    ensures var r := Apply(s, st);
            && r.reaped == s.reaped + [s.slots[i].pid] && r.exited == s.exited && |r.slots| == |s.slots|
            && r.slots[i] == Empty && forall j :: 0 <= j < |s.slots| && j != i && j != st.p ==> r.slots[j] == s.slots[j]
  {
    RunInv(s, n, run);
    assert SlotOk(s, st.p) && StateOk(s.slots[st.p]);
    i := s.slots[st.p].pc.i;
    assert LookOk(s, st.p);
    assert SlotOk(s, i);
  }

  /** No slot that is free, or being filled for a new process, is still on a CPU
      under its old one. */
  lemma FreeIsOff(s: Sys, n: nat, run: seq<Step>, i: nat)
    requires Reachable(s, n, run) && i < |s.slots| && s.slots[i].switching
    ensures s.slots[i].state == Zombie && s.slots[i].pid in s.exited && s.slots[i].pid !in s.reaped
  {
    RunInv(s, n, run);
    assert SlotOk(s, i) && StateOk(s.slots[i]);
  }
}
