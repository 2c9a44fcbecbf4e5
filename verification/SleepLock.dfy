/** Sleep-locks (kernel/sleeplock.c) as a use of sleep and wakeup: lock l is
    guarded by spinlock l and waited for on channel l, whose condition is that it
    is not locked. Every step is a step of the machine in Sleep. */
module SleepLock {
  import opened Base
  import opened Sleep

  /** Where a process stands in acquiresleep and releasesleep of l. */
  datatype Mode =
    | Out
    | Wants(l: nat)    // acquiresleep, not yet had it
    | Took(l: nat)     // has set `locked`
    | Gives(l: nat)    // releasesleep, not yet cleared
    | Gave(l: nat)     // has cleared `locked`
    | Told(l: nat)     // has called wakeup

  datatype Lk = Lk(locked: bool, owner: nat)

  /** `held` are the sleep-locks a process has and has not given back. */
  datatype Caller = Caller(mode: Mode, held: set<nat>)

  datatype State = State(m: Sys, lks: seq<Lk>, callers: seq<Caller>)

  datatype Call =
    | Acquire(p: nat, l: nat)
    | Test(p: nat)       // the while loop's test of `locked`, and what follows
    | Release(p: nat, l: nat)
    | Clear(p: nat)
    | Tell(p: nat)
    | Unlock(p: nat)     // release(&lk->lk)
    | Below(st: Step)    // inside sleep, wakeup, the scheduler

  function Who(call: Call): (p: nat) {
    if call.Below? then call.st.p else call.p
  }

  /** The step of the machine below that a call takes. */
  function StepOf(s: State, call: Call): (st: Step) {
    match call
    case Acquire(p, l) => Enter(p, l)
    case Release(p, l) => Enter(p, l)
    case Test(p) =>
      if p < |s.callers| && s.callers[p].mode.Wants? && s.callers[p].mode.l < |s.lks|
        && s.lks[s.callers[p].mode.l].locked then
        Wait(p, s.callers[p].mode.l)
      else Change(p, {})
    case Clear(p) => Change(p, if p < |s.callers| && s.callers[p].mode.Gives? then {s.callers[p].mode.l} else {})
    case Tell(p) => Wake(p, if p < |s.callers| && s.callers[p].mode.Gave? then s.callers[p].mode.l else 0)
    case Unlock(p) => Leave(p)
    case Below(st) => st
  }

  /** What the code asks for, in the order it does so; locks are given back only
      by those who have them. */
  predicate Allowed(s: State, call: Call) {
    Who(call) < |s.callers| && var q := s.callers[Who(call)];
    match call
    case Acquire(p, l) => q.mode == Out && l < |s.lks|
    case Release(p, l) => q.mode == Out && l in q.held
    case Test(p) => q.mode.Wants? && q.mode.l < |s.lks|
    case Clear(p) => q.mode.Gives? && q.mode.l < |s.lks|
    case Tell(p) => q.mode.Gave?
    case Unlock(p) => q.mode.Took? || q.mode.Told?
    case Below(st) => st.Advance? || st.Run? || st.SchedulerUnlock? || st.Kill? || st.Yield?
  }

  predicate Enabled(s: State, call: Call) {
    Allowed(s, call) && Sleep.Enabled(s.m, StepOf(s, call))
  }

  function Apply(s: State, call: Call): (r: State)
    requires Enabled(s, call)
  {
    var m := Sleep.Apply(s.m, StepOf(s, call));
    var p := Who(call);
    var q := s.callers[p];
    match call
    case Acquire(_, l) => s.(m := m, callers := s.callers[p := q.(mode := Wants(l))])
    case Release(_, l) => s.(m := m, callers := s.callers[p := q.(mode := Gives(l))])
    case Test(_) =>
      if s.lks[q.mode.l].locked then s.(m := m)
      else s.(m := m, lks := s.lks[q.mode.l := Lk(true, p)], callers := s.callers[p := q.(mode := Took(q.mode.l))])
    case Clear(_) =>
      s.(m := m, lks := s.lks[q.mode.l := Lk(false, 0)],
         callers := s.callers[p := Caller(Gave(q.mode.l), q.held - {q.mode.l})])
    case Tell(_) => s.(m := m, callers := s.callers[p := q.(mode := Told(q.mode.l))])
    case Unlock(_) =>
      s.(m := m, callers := s.callers[p := Caller(Out, if q.mode.Took? then q.held + {q.mode.l} else q.held)])
    case Below(_) => s.(m := m)
  }

  function Start(procs: nat, locks: nat): (u: Setup) {
    Setup(procs, seq(locks, l => l), seq(locks, l => {l}))
  }

  function Init(procs: nat, locks: nat): (s: State) {
    State(Sleep.Init(Start(procs, locks)), seq(locks, _ => Lk(false, 0)), seq(procs, _ => Caller(Out, {})))
  }

  /** Where the process stands below goes with where it stands above. */
  predicate PcOk(mode: Mode, pc: Pc) {
    match mode
    case Out => pc.Idle? || ((pc.GoOff? || pc.Off? || pc.Back?) && pc.on == None)
    case Wants(l) => pc == WantSpin(l) || pc == In(l) || pc == GrabSelf(l) || pc == DropSpin(l)
      || ((pc.GoOff? || pc.Off? || pc.Back?) && pc.on == Some(l))
    case Took(l) => pc == In(l)
    case Gives(l) => pc == WantSpin(l) || pc == In(l)
    case Gave(l) => pc == In(l)
    case Told(l) => pc == In(l) || ((pc.WakeGrab? || pc.WakeCheck?) && pc.c == l)
  }

  /** A wakeup is owed from clearing the lock to the end of the wakeup only. */
  predicate DebtOk(mode: Mode, q: Proc) {
    match mode
    case Gave(l) => q.owed <= {l}
    case Told(l) => if q.pc.In? then q.owed == {} else q.owed <= {l}
    case _ => q.owed == {}
  }

  ghost predicate CallerOk(s: State, p: nat)
    requires p < |s.callers| == |s.m.procs|
  {
    PcOk(s.callers[p].mode, s.m.procs[p].pc) && DebtOk(s.callers[p].mode, s.m.procs[p])
    && (s.callers[p].mode.Gives? ==> s.callers[p].mode.l in s.callers[p].held)
  }

  /** The channel's condition is that the lock is free. */
  ghost predicate DataOk(s: State, l: nat)
    requires l < |s.lks| == |s.m.locks|
  {
    s.m.locks[l].ready == if s.lks[l].locked then {} else {l}
  }

  predicate Has(q: Caller, l: nat) {
    l in q.held || q.mode == Took(l)
  }

  /** A sleep-lock that is locked is had by its owner, */
  ghost predicate OwnerOk(s: State, l: nat)
    requires l < |s.lks|
  {
    s.lks[l].locked ==> s.lks[l].owner < |s.callers| && Has(s.callers[s.lks[l].owner], l)
  }

  /** and by no one else. */
  ghost predicate HasOk(s: State, p: nat, l: nat)
    requires p < |s.callers|
  {
    Has(s.callers[p], l) ==> l < |s.lks| && s.lks[l].locked && s.lks[l].owner == p
  }

  ghost predicate Shape(s: State) {
    && |s.callers| == |s.m.procs| && |s.lks| == |s.m.locks| == |s.m.lockOf|
    && forall c :: 0 <= c < |s.m.lockOf| ==> s.m.lockOf[c] == c
  }

  ghost predicate Inv(s: State) {
    && Shape(s) && Sleep.Inv(s.m)
    && (forall p :: 0 <= p < |s.callers| ==> CallerOk(s, p))
    && (forall l :: 0 <= l < |s.lks| ==> DataOk(s, l) && OwnerOk(s, l))
    && (forall p, l: nat :: 0 <= p < |s.callers| ==> HasOk(s, p, l))
  }

  lemma InitInv(procs: nat, locks: nat)
    ensures Inv(Init(procs, locks)) && Start(procs, locks).Ok()
  {
    hide Sleep.Inv;
    Sleep.InitInv(Start(procs, locks));
  }

  /** A step below, seen from above: other processes stand where they stood, but
      for being woken, and other locks' conditions are as they were. */
  lemma BelowOthers(m: Sys, st: Step, q: nat)
    requires Sleep.Enabled(m, st) && q < |m.procs| && q != st.p
    ensures q < |Sleep.Apply(m, st).procs|
    ensures Sleep.Apply(m, st).procs[q].pc == m.procs[q].pc && Sleep.Apply(m, st).procs[q].owed == m.procs[q].owed
  {
  }

  lemma BelowReady(m: Sys, st: Step, l: nat)
    requires Sleep.Enabled(m, st) && l < |m.locks| && !(st.Change? && m.procs[st.p].pc == In(l))
    ensures l < |Sleep.Apply(m, st).locks| && Sleep.Apply(m, st).locks[l].ready == m.locks[l].ready
  {
  }

  /** The process that takes the step, below */
  lemma CallerBelow(s: State, call: Call)
    requires Enabled(s, call) && Shape(s) && CallerOk(s, Who(call)) && call.Below?
    requires StateOk(s.m.procs[Who(call)], s.m.lockOf)
    ensures Shape(Apply(s, call)) && CallerOk(Apply(s, call), Who(call))
  {
  }

  /** or above. */
  lemma CallerAbove(s: State, call: Call)
    requires Enabled(s, call) && Shape(s) && CallerOk(s, Who(call)) && !call.Below?
    ensures Shape(Apply(s, call)) && CallerOk(Apply(s, call), Who(call))
  {
    hide Moved;
  }

  lemma CallerStays(s: State, call: Call, q: nat)
    requires Enabled(s, call) && Shape(s) && q < |s.callers| && q != Who(call) && CallerOk(s, q)
    ensures Shape(Apply(s, call)) && CallerOk(Apply(s, call), q)
  {
    hide Sleep.Apply;
    hide Sleep.Enabled;
    StepShape(s.m, StepOf(s, call));
    BelowOthers(s.m, StepOf(s, call), q);
  }

  lemma DataStep(s: State, call: Call, l: nat)
    requires Enabled(s, call) && Shape(s) && l < |s.lks| && DataOk(s, l) && CallerOk(s, Who(call))
    ensures Shape(Apply(s, call)) && DataOk(Apply(s, call), l)
  {
    StepShape(s.m, StepOf(s, call));
    var st := StepOf(s, call);
    if !(st.Change? && s.m.procs[st.p].pc == In(l)) {
      BelowReady(s.m, st, l);
    }
  }

  lemma OwnerStep(s: State, call: Call, l: nat)
    requires Enabled(s, call) && l < |s.lks| && OwnerOk(s, l) && HasOk(s, Who(call), l)
    ensures OwnerOk(Apply(s, call), l)
  {
    hide Sleep.Apply;
    hide Sleep.Enabled;
  }

  lemma HasStep(s: State, call: Call, q: nat, l: nat)
    requires Enabled(s, call) && q < |s.callers| && HasOk(s, q, l) && HasOk(s, Who(call), l)
    requires s.callers[Who(call)].mode.Gives? ==> s.callers[Who(call)].mode.l in s.callers[Who(call)].held
    ensures HasOk(Apply(s, call), q, l)
  {
    hide Sleep.Apply;
    hide Sleep.Enabled;
  }

  /** Every call keeps the invariant. */
  lemma StepInv(s: State, call: Call)
    requires Inv(s) && Enabled(s, call)
    ensures Inv(Apply(s, call))
  {
    hide Sleep.Inv;
    hide Sleep.Apply;
    hide Sleep.Enabled;
    hide CallerOk;
    hide DataOk;
    hide OwnerOk;
    hide HasOk;
    var p := Who(call);
    Sleep.StepInv(s.m, StepOf(s, call));
    StateOf(s.m, p);
    assert CallerOk(s, p);
    if call.Below? {
      CallerBelow(s, call);
    } else {
      CallerAbove(s, call);
    }
    GivesHeld(s, p);
    var r := Apply(s, call);
    forall q | 0 <= q < |r.callers|
      ensures CallerOk(r, q)
    {
      if q != p {
        CallerStays(s, call, q);
      }
    }
    forall l | 0 <= l < |r.lks|
      ensures DataOk(r, l) && OwnerOk(r, l)
    {
      DataStep(s, call, l);
      OwnerStep(s, call, l);
    }
    forall q, l: nat | 0 <= q < |r.callers|
      ensures HasOk(r, q, l)
    {
      HasStep(s, call, q, l);
    }
  }

  lemma StateOf(m: Sys, p: nat)
    requires Sleep.Inv(m) && p < |m.procs|
    ensures StateOk(m.procs[p], m.lockOf)
  {
  }

  lemma GivesHeld(s: State, p: nat)
    requires p < |s.callers| == |s.m.procs| && CallerOk(s, p)
    ensures s.callers[p].mode.Gives? ==> s.callers[p].mode.l in s.callers[p].held
  {
  }

  ghost predicate Possible(s: State, run: seq<Call>)
    decreases |run|
  {
    run == [] || (Enabled(s, run[0]) && Possible(Apply(s, run[0]), run[1..]))
  }

  ghost function After(s: State, run: seq<Call>): (r: State)
    requires Possible(s, run)
    decreases |run|
  {
    if run == [] then s else After(Apply(s, run[0]), run[1..])
  }

  lemma {:induction false} AfterInv(s: State, run: seq<Call>)
    requires Inv(s) && Possible(s, run)
    ensures Inv(After(s, run))
    decreases |run|
  {
    if run != [] {
      StepInv(s, run[0]);
      AfterInv(Apply(s, run[0]), run[1..]);
    }
  }

  ghost predicate Reachable(s: State, procs: nat, locks: nat, run: seq<Call>) {
    Possible(Init(procs, locks), run) && s == After(Init(procs, locks), run)
  }

  lemma RunInv(s: State, procs: nat, locks: nat, run: seq<Call>)
    requires Reachable(s, procs, locks, run)
    ensures Inv(s)
  {
    InitInv(procs, locks);
    AfterInv(Init(procs, locks), run);
  }

  /** The code keeps the rule of sleep and wakeup. Whatever a process that holds
      the spinlock comes to next, Enabled does not hold it back: it calls sleep
      only when the lock is taken, and neither sleeps nor lets the spinlock go
      with a wakeup owed. */
  lemma KeepsRule(s: State, procs: nat, locks: nat, run: seq<Call>, p: nat)
    requires Reachable(s, procs, locks, run) && p < |s.callers|
    ensures p < |s.m.procs|
    ensures s.m.procs[p].pc.In? ==>
              forall call :: call in [Test(p), Clear(p), Tell(p), Unlock(p)] && Allowed(s, call) ==> Enabled(s, call)
  {
    RunInv(s, procs, locks, run);
    assert CallerOk(s, p) && SpinOk(s.m, p);
    var mode := s.callers[p].mode;
    if !mode.Out? && mode.l < |s.lks| {
      assert DataOk(s, mode.l);
    }
  }

  /** In every reachable state a sleep-lock is had by one process at most, */
  lemma MutualExclusion(s: State, procs: nat, locks: nat, run: seq<Call>, p: nat, q: nat, l: nat)
    requires Reachable(s, procs, locks, run) && p < |s.callers| && q < |s.callers|
    requires l in s.callers[p].held && l in s.callers[q].held
    ensures p == q && l < |s.lks| && s.lks[l].locked && s.lks[l].owner == p
  {
    RunInv(s, procs, locks, run);
    assert HasOk(s, p, l) && HasOk(s, q, l);
  }

  /** and no process sleeps on one that is free, unless the process that freed it
      has still to wake it. */
  lemma NoSleepOnFree(s: State, procs: nat, locks: nat, run: seq<Call>, p: nat, l: nat)
    requires Reachable(s, procs, locks, run) && p < |s.m.procs|
    requires s.m.procs[p].state == Sleeping && s.m.procs[p].chan == Some(l)
    ensures l < |s.lks| == |s.m.locks|
    ensures s.lks[l].locked || (s.m.locks[l].spin.Some? && Owes(s.m, s.m.locks[l].spin.value, l, p))
  {
    RunInv(s, procs, locks, run);
    assert StateOk(s.m.procs[p], s.m.lockOf) && Awaits(s.m, p, l);
    assert DataOk(s, l);
  }
}
