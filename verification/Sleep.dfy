/** sleep, wakeup and the scheduler's part in them (kernel/proc.c), for any
    channels and any conditions. A channel belongs to a spinlock lk; its condition
    is about data that changes only under lk. All that matters of that data here
    is which channels' conditions hold, so a lock carries just that set, and a
    process that holds lk may change it at will, as long as it calls wakeup on
    every channel whose condition it made true before it lets lk go.

    One step is what a process does between two acquisitions of a spinlock, so
    that any interleaving of processes, scheduler and kill is a run. */
module Sleep {
  import opened Base

  datatype ProcState = Sleeping | Runnable | Running

  /** Who holds a process's own lock: a process, or the scheduler that was
      switched to with the lock held. */
  datatype Holder = ByProc(p: nat) | ByScheduler

  /** Where a process stands; l is a lock, c a channel. */
  datatype Pc =
    | Idle                        // holds no lock
    | WantSpin(l: nat)            // about to acquire l
    | In(l: nat)                  // holds l
    | GrabSelf(c: nat)            // sleep, about to acquire p->lock
    | DropSpin(c: nat)            // about to release lk
    | GoOff(on: Option<nat>)      // sleep or yield, about to switch
    | Off(on: Option<nat>)        // switched out
    | Back(on: Option<nat>)       // back from the scheduler
    | WakeGrab(c: nat, i: nat)    // wakeup, about to look at process i
    | WakeCheck(c: nat, i: nat)   // holds i's lock

  /** `owed` are the channels whose condition the holder of a lock has made true
      without a wakeup, `woken` those on which it has called wakeup since it took
      the lock. */
  datatype Proc = Proc(pc: Pc, state: ProcState, chan: Option<nat>, lockedBy: Option<Holder>, owed: set<nat>,
                       woken: set<nat>)

  /** `ready` are the channels of the lock whose condition holds. */
  datatype Lock = Lock(spin: Option<nat>, ready: set<nat>)

  /** `lockOf` is the lock of each channel. */
  datatype Sys = Sys(procs: seq<Proc>, locks: seq<Lock>, lockOf: seq<nat>)

  datatype Step =
    | Enter(p: nat, l: nat)            // acquire(lk)
    | Leave(p: nat)                    // release(lk)
    | Change(p: nat, ready: set<nat>)  // change what lk guards
    | Wait(p: nat, c: nat)             // find c's condition false and call sleep
    | Wake(p: nat, c: nat)             // call wakeup
    | Yield(p: nat)
    | Advance(p: nat)
    | Run(p: nat)
    | SchedulerUnlock(p: nat)
    | Kill(p: nat)

  predicate On(s: Sys, c: nat, l: nat) {
    c < |s.lockOf| && s.lockOf[c] == l && l < |s.locks|
  }

  /** The spinlock that a process at pc holds. */
  function SpinOf(lockOf: seq<nat>, pc: Pc): (r: Option<nat>) {
    if pc.In? then Some(pc.l)
    else if pc.GrabSelf? || pc.DropSpin? || pc.WakeGrab? || pc.WakeCheck? then
      (if pc.c < |lockOf| then Some(lockOf[pc.c]) else None)
    else None
  }

  predicate HoldsSelf(pc: Pc) {
    pc.DropSpin? || pc.GoOff? || pc.Back?
  }

  /** Steps that need a lock wait until it is free. */
  predicate Enabled(s: Sys, st: Step) {
    st.p < |s.procs| && var q := s.procs[st.p];
    match st
    case Enter(p, l) => q.pc == Idle && l < |s.locks|
    case Leave(p) => q.pc.In? && q.pc.l < |s.locks| && q.owed == {}
    case Change(p, ready) => q.pc.In? && q.pc.l < |s.locks| && forall c :: c in ready ==> On(s, c, q.pc.l)
    case Wait(p, c) => q.pc.In? && On(s, c, q.pc.l) && c !in s.locks[q.pc.l].ready && q.owed == {}
    case Wake(p, c) => q.pc.In? && On(s, c, q.pc.l)
    case Yield(p) => q.pc == Idle && q.lockedBy == None
    case Advance(p) =>
      (match q.pc
       case WantSpin(l) => l < |s.locks| && s.locks[l].spin == None
       case GrabSelf(_) => q.lockedBy == None
       case DropSpin(c) => c < |s.lockOf| && s.lockOf[c] < |s.locks|
       case GoOff(_) => true
       case Back(on) => on.Some? ==> on.value < |s.lockOf|
       case WakeGrab(c, i) => c < |s.lockOf| && (i < |s.procs| && i != p ==> s.procs[i].lockedBy == None)
       case WakeCheck(_, i) => i < |s.procs|
       case _ => false)
    case Run(p) => q.lockedBy == None && q.state == Runnable && q.pc.Off?
    case SchedulerUnlock(p) => q.lockedBy == Some(ByScheduler)
    case Kill(p) => q.lockedBy == None
  }

  function SetProc(s: Sys, p: nat, q: Proc): (r: Sys)
    requires p < |s.procs|
  {
    s.(procs := s.procs[p := q])
  }

  function SetLock(s: Sys, l: nat, k: Lock): (r: Sys)
    requires l < |s.locks|
  {
    s.(locks := s.locks[l := k])
  }

  function Goto(s: Sys, p: nat, pc: Pc): (r: Sys)
    requires p < |s.procs|
  {
    SetProc(s, p, s.procs[p].(pc := pc))
  }

  function Woke(q: Proc, c: nat): (r: Proc) {
    if q.state == Sleeping && q.chan == Some(c) then q.(state := Runnable) else q
  }

  /** Conditions that become true are owed a wakeup, unless there was one under
      the same lock already. */
  function Changed(q: Proc, before: set<nat>, ready: set<nat>): (r: Proc) {
    q.(owed := (q.owed + ((ready - before) - q.woken)) * ready)
  }

  function Moved(s: Sys, p: nat): (r: Sys)
    requires Enabled(s, Advance(p))
  {
    var q := s.procs[p];
    match q.pc
    case WantSpin(l) => SetLock(Goto(s, p, In(l)), l, s.locks[l].(spin := Some(p)))
    case GrabSelf(c) => SetProc(s, p, q.(pc := DropSpin(c), lockedBy := Some(ByProc(p))))
    case DropSpin(c) =>
      SetLock(SetProc(s, p, q.(pc := GoOff(Some(c)), woken := {})), s.lockOf[c], s.locks[s.lockOf[c]].(spin := None))
    case GoOff(on) =>
      SetProc(s, p, q.(pc := Off(on), state := if on.Some? then Sleeping
                       else Runnable, chan := on, lockedBy := Some(ByScheduler)))
    case Back(on) =>
      SetProc(s, p, q.(pc := if on.Some? then WantSpin(s.lockOf[on.value]) else Idle, chan := None, lockedBy := None))
    case WakeGrab(c, i) =>
      if i >= |s.procs| then SetProc(s, p, q.(pc := In(s.lockOf[c]), owed := q.owed - {c}, woken := q.woken + {c}))
      else if i == p then Goto(s, p, WakeGrab(c, i + 1))
      else SetProc(Goto(s, p, WakeCheck(c, i)), i, s.procs[i].(lockedBy := Some(ByProc(p))))
    case WakeCheck(c, i) =>
      SetProc(Goto(s, p, WakeGrab(c, i + 1)), i, Woke(s.procs[i], c).(lockedBy := None))
    case _ => s
  }

  function Apply(s: Sys, st: Step): (r: Sys)
    requires Enabled(s, st)
  {
    var q := s.procs[st.p];
    match st
    case Enter(p, l) => Goto(s, p, WantSpin(l))
    case Leave(p) => SetLock(SetProc(s, p, q.(pc := Idle, woken := {})), q.pc.l, s.locks[q.pc.l].(spin := None))
    case Change(p, ready) =>
      SetLock(SetProc(s, p, Changed(q, s.locks[q.pc.l].ready, ready)), q.pc.l, s.locks[q.pc.l].(ready := ready))
    case Wait(p, c) => Goto(s, p, GrabSelf(c))
    case Wake(p, c) => Goto(s, p, WakeGrab(c, 0))
    case Yield(p) => SetProc(s, p, q.(pc := GoOff(None), lockedBy := Some(ByProc(p))))
    case Advance(p) => Moved(s, p)
    case Run(p) => SetProc(s, p, q.(pc := Back(q.pc.on), state := Running, lockedBy := Some(ByProc(p))))
    case SchedulerUnlock(p) => SetProc(s, p, q.(lockedBy := None))
    case Kill(p) => SetProc(s, p, q.(state := if q.state == Sleeping then Runnable else q.state))
  }

  /** What the channels and their conditions are to begin with. */
  datatype Setup = Setup(procs: nat, lockOf: seq<nat>, ready: seq<set<nat>>) {
    ghost predicate Ok() {
      && (forall c :: 0 <= c < |lockOf| ==> lockOf[c] < |ready|)
      && (forall l :: 0 <= l < |ready| ==> forall c :: c in ready[l] ==> c < |lockOf| && lockOf[c] == l)
    }
  }

  function Init(u: Setup): (s: Sys) {
    Sys(seq(u.procs, _ => Proc(Idle, Running, None, None, {}, {})),
        seq(|u.ready|, l requires 0 <= l < |u.ready| => Lock(None, u.ready[l])), u.lockOf)
  }

  /** The spinlock that a process stands holding is its own. */
  ghost predicate SpinOk(s: Sys, p: nat)
    requires p < |s.procs|
  {
    var l := SpinOf(s.lockOf, s.procs[p].pc);
    l.Some? ==> l.value < |s.locks| && s.locks[l.value].spin == Some(p)
  }

  /** A spinlock that is taken has such a holder. */
  ghost predicate TakenOk(s: Sys, l: nat)
    requires l < |s.locks|
  {
    var p := s.locks[l].spin;
    p.Some? ==> p.value < |s.procs| && SpinOf(s.lockOf, s.procs[p.value].pc) == Some(l)
  }

  /** p->lock is held by p itself inside sleep or yield, by a process inside
      wakeup, or by the scheduler that p switched to. */
  ghost predicate SelfOk(s: Sys, i: nat)
    requires i < |s.procs|
  {
    var q := s.procs[i];
    && (HoldsSelf(q.pc) <==> q.lockedBy == Some(ByProc(i)))
    && (q.lockedBy == Some(ByScheduler) ==> q.pc.Off?)
    && (q.lockedBy.Some? && q.lockedBy.value.ByProc? && q.lockedBy.value.p != i ==>
          var p := q.lockedBy.value.p;
          p < |s.procs| && s.procs[p].pc.WakeCheck? && s.procs[p].pc.i == i)
  }

  ghost predicate CheckOk(s: Sys, p: nat)
    requires p < |s.procs|
  {
    var pc := s.procs[p].pc;
    pc.WakeCheck? ==> pc.i < |s.procs| && pc.i != p && s.procs[pc.i].lockedBy == Some(ByProc(p))
  }

  /** State, channel and debts go with where the process stands. */
  predicate StateOk(q: Proc, lockOf: seq<nat>) {
    && q.chan == (if q.pc.Off? || q.pc.Back? then q.pc.on else None)
    && (if q.pc.Off? then q.state != Running && (q.pc.on == None ==> q.state == Runnable) else q.state == Running)
    && (q.pc.GrabSelf? || q.pc.DropSpin? || q.pc.WakeGrab? || q.pc.WakeCheck? ==> q.pc.c < |lockOf|)
    && ((q.pc.GoOff? || q.pc.Off? || q.pc.Back?) && q.pc.on.Some? ==> q.pc.on.value < |lockOf|)
    && (q.owed != {} ==> q.pc.In? || q.pc.WakeGrab? || q.pc.WakeCheck?)
    && (q.woken != {} ==> SpinOf(lockOf, q.pc).Some?)
  }

  /** Only channels of a lock are ready under it. */
  ghost predicate ReadyOk(s: Sys, l: nat)
    requires l < |s.locks|
  {
    forall c :: c in s.locks[l].ready ==> On(s, c, l)
  }

  /** Debts are for conditions that hold. */
  ghost predicate OwedOk(s: Sys, p: nat)
    requires p < |s.procs|
  {
    var l := SpinOf(s.lockOf, s.procs[p].pc);
    forall c :: c in s.procs[p].owed ==> l.Some? && l.value < |s.locks| && c in s.locks[l.value].ready
  }

  /** A process that is about to let go of lk has seen its condition false. */
  ghost predicate Tested(s: Sys, p: nat)
    requires p < |s.procs|
  {
    var pc := s.procs[p].pc;
    (pc.GrabSelf? || pc.DropSpin?) && pc.c < |s.lockOf| && s.lockOf[pc.c] < |s.locks| ==>
        pc.c !in s.locks[s.lockOf[pc.c]].ready
  }

  /** On its way to sleep, or asleep, on channel c. */
  predicate Dozing(q: Proc, c: nat) {
    q.pc == GoOff(Some(c)) || (q.pc == Off(Some(c)) && q.state == Sleeping)
  }

  /** Process h, which holds the lock of c, owes c a wakeup and has not passed p
      in one. */
  ghost predicate Owes(s: Sys, h: nat, c: nat, p: nat) {
    h < |s.procs| && c in s.procs[h].owed && Before(s, h, c, p)
  }

  /** In a wakeup on c, h has not come to p yet. */
  ghost predicate Before(s: Sys, h: nat, c: nat, p: nat) {
    h < |s.procs| && var pc := s.procs[h].pc; (pc.WakeGrab? || pc.WakeCheck?) && pc.c == c ==> pc.i <= p
  }

  /** A process that dozes on c waits for a condition that is false, or whose
      wakeup is still to come; and no wakeup under the lock has passed it. */
  ghost predicate Awaits(s: Sys, p: nat, c: nat)
    requires p < |s.procs|
  {
    Dozing(s.procs[p], c) ==>
      && c < |s.lockOf| && s.lockOf[c] < |s.locks|
      && var k := s.locks[s.lockOf[c]];
         && (c in k.ready ==> k.spin.Some? && Owes(s, k.spin.value, c, p))
         && (k.spin.Some? ==> Before(s, k.spin.value, c, p) && c !in s.procs[k.spin.value].woken)
  }

  ghost predicate SpinInv(s: Sys) {
    && (forall p :: 0 <= p < |s.procs| ==> SpinOk(s, p) && OwedOk(s, p))
    && (forall l :: 0 <= l < |s.locks| ==> TakenOk(s, l) && ReadyOk(s, l))
    && (forall c :: 0 <= c < |s.lockOf| ==> s.lockOf[c] < |s.locks|)
  }

  ghost predicate SelfInv(s: Sys) {
    && (forall p :: 0 <= p < |s.procs| ==> SelfOk(s, p))
    && (forall p :: 0 <= p < |s.procs| ==> CheckOk(s, p))
  }

  ghost predicate StateInv(s: Sys) {
    forall p :: 0 <= p < |s.procs| ==> StateOk(s.procs[p], s.lockOf)
  }

  ghost predicate WakeInv(s: Sys) {
    && (forall p :: 0 <= p < |s.procs| ==> Tested(s, p))
    && (forall p, c: nat :: 0 <= p < |s.procs| ==> Awaits(s, p, c))
  }

  ghost predicate Inv(s: Sys) {
    SpinInv(s) && SelfInv(s) && StateInv(s) && WakeInv(s)
  }

  lemma InitInv(u: Setup)
    requires u.Ok()
    ensures Inv(Init(u))
  {
  }

  lemma SpinStep(s: Sys, st: Step, q: nat)
    requires Enabled(s, st) && q < |s.procs| && SpinOk(s, q) && SpinOk(s, st.p)
    ensures SpinOk(Apply(s, st), q)
  {
  }

  lemma TakenStep(s: Sys, st: Step, l: nat)
    requires Enabled(s, st) && l < |s.locks| && TakenOk(s, l) && SpinOk(s, st.p) && StateOk(s.procs[st.p], s.lockOf)
    ensures TakenOk(Apply(s, st), l)
  {
  }

  lemma ReadyStep(s: Sys, st: Step, l: nat)
    requires Enabled(s, st) && l < |s.locks| && ReadyOk(s, l)
    ensures ReadyOk(Apply(s, st), l)
  {
  }

  lemma OwedStep(s: Sys, st: Step, q: nat)
    requires Enabled(s, st) && q < |s.procs| && OwedOk(s, q) && OwedOk(s, st.p) && SpinOk(s, q) && SpinOk(s, st.p)
    requires StateOk(s.procs[q], s.lockOf)
    ensures OwedOk(Apply(s, st), q)
  {
  }

  lemma SelfMove(s: Sys, p: nat, i: nat)
    requires Enabled(s, Advance(p)) && i < |s.procs| && SelfOk(s, i) && SelfOk(s, p) && CheckOk(s, p)
    requires !s.procs[p].pc.WakeGrab? && !s.procs[p].pc.WakeCheck?
    ensures SelfOk(Moved(s, p), i)
  {
  }

  lemma SelfWake(s: Sys, p: nat, i: nat)
    requires Enabled(s, Advance(p)) && i < |s.procs| && SelfOk(s, i) && SelfOk(s, p) && CheckOk(s, p)
    requires s.procs[p].pc.WakeGrab? || s.procs[p].pc.WakeCheck?
    ensures SelfOk(Moved(s, p), i)
  {
  }

  lemma SelfStep(s: Sys, st: Step, i: nat)
    requires Enabled(s, st) && i < |s.procs| && SelfOk(s, i) && SelfOk(s, st.p) && CheckOk(s, st.p)
    ensures SelfOk(Apply(s, st), i)
  {
    hide Moved;
    if st.Advance? {
      if s.procs[st.p].pc.WakeGrab? || s.procs[st.p].pc.WakeCheck? {
        SelfWake(s, st.p, i);
      } else {
        SelfMove(s, st.p, i);
      }
    }
  }

  lemma CheckStep(s: Sys, st: Step, q: nat)
    requires Enabled(s, st) && q < |s.procs| && CheckOk(s, q) && CheckOk(s, st.p) && SelfOk(s, st.p)
    ensures CheckOk(Apply(s, st), q)
  {
  }

  lemma StateMove(s: Sys, p: nat, q: nat)
    requires Enabled(s, Advance(p)) && q < |s.procs| && CheckOk(s, p)
    requires StateOk(s.procs[q], s.lockOf) && StateOk(s.procs[p], s.lockOf)
    ensures StateOk(Moved(s, p).procs[q], s.lockOf)
  {
  }

  lemma StateStep(s: Sys, st: Step, q: nat)
    requires Enabled(s, st) && q < |s.procs| && CheckOk(s, st.p)
    requires StateOk(s.procs[q], s.lockOf) && StateOk(s.procs[st.p], s.lockOf)
    ensures StateOk(Apply(s, st).procs[q], s.lockOf)
  {
    hide Moved;
    if st.Advance? {
      StateMove(s, st.p, q);
    }
  }

  lemma TestedStep(s: Sys, st: Step, q: nat)
    requires Enabled(s, st) && q < |s.procs| && Tested(s, q) && Tested(s, st.p) && SpinOk(s, q) && SpinOk(s, st.p)
    requires StateOk(s.procs[q], s.lockOf)
    ensures Tested(Apply(s, st), q)
  {
  }

  /** Steps that are not about locks or wakeups. */
  lemma AwaitsOther(s: Sys, st: Step, q: nat, c: nat)
    requires Enabled(s, st) && q < |s.procs| && Awaits(s, q, c) && !st.Advance? && !st.Change?
    requires SpinOk(s, st.p) && StateOk(s.procs[st.p], s.lockOf)
    ensures Awaits(Apply(s, st), q, c)
  {
  }

  lemma AwaitsChange(s: Sys, st: Step, q: nat, c: nat)
    requires Enabled(s, st) && q < |s.procs| && Awaits(s, q, c) && st.Change?
    requires SpinOk(s, st.p) && (c < |s.lockOf| && s.lockOf[c] < |s.locks| ==> TakenOk(s, s.lockOf[c]))
    ensures Awaits(Apply(s, st), q, c)
  {
  }

  lemma AwaitsMove(s: Sys, p: nat, q: nat, c: nat)
    requires Enabled(s, Advance(p)) && q < |s.procs| && Awaits(s, q, c) && Tested(s, p)
    requires !s.procs[p].pc.WakeGrab? && !s.procs[p].pc.WakeCheck?
    requires SpinOk(s, p) && StateOk(s.procs[q], s.lockOf) && StateOk(s.procs[p], s.lockOf)
    ensures Awaits(Moved(s, p), q, c)
  {
  }

  lemma AwaitsGrab(s: Sys, p: nat, q: nat, c: nat)
    requires Enabled(s, Advance(p)) && q < |s.procs| && Awaits(s, q, c) && s.procs[p].pc.WakeGrab?
    requires SpinOk(s, p) && StateOk(s.procs[p], s.lockOf)
    ensures Awaits(Moved(s, p), q, c)
  {
    var r := Moved(s, p);
    var pc := s.procs[p].pc;
    if Dozing(r.procs[q], c) {
      assert q != p;
      assert Dozing(s.procs[q], c);
      var k := s.locks[s.lockOf[c]];
      if k.spin.Some? {
        var h := k.spin.value;
        assert Before(s, h, c, q);
        assert Before(r, h, c, q);
        assert c !in r.procs[h].woken;
        assert c in k.ready ==> c in r.procs[h].owed;
      }
    }
  }

  /** A process that wakeup passes is not dozing on the channel any more. */
  lemma Passed(s: Sys, p: nat, c: nat)
    requires Enabled(s, Advance(p)) && s.procs[p].pc.WakeCheck? && CheckOk(s, p)
    requires SelfOk(s, s.procs[p].pc.i) && StateOk(s.procs[s.procs[p].pc.i], s.lockOf)
    ensures Dozing(Moved(s, p).procs[s.procs[p].pc.i], c) ==>
              c != s.procs[p].pc.c && Dozing(s.procs[s.procs[p].pc.i], c)
  {
  }

  lemma AwaitsCheck(s: Sys, p: nat, q: nat, c: nat)
    requires Enabled(s, Advance(p)) && q < |s.procs| && Awaits(s, q, c) && s.procs[p].pc.WakeCheck?
    requires SpinOk(s, p) && StateOk(s.procs[q], s.lockOf) && SelfOk(s, q) && CheckOk(s, p)
             && StateOk(s.procs[p], s.lockOf)
    ensures Awaits(Moved(s, p), q, c)
  {
    if s.procs[p].pc.i == q {
      Passed(s, p, c);
    }
  }

  lemma AwaitsStep(s: Sys, st: Step, q: nat, c: nat)
    requires Enabled(s, st) && q < |s.procs| && Awaits(s, q, c) && Tested(s, st.p)
    requires SpinOk(s, st.p) && StateOk(s.procs[q], s.lockOf) && StateOk(s.procs[st.p], s.lockOf) && SelfOk(s, q)
             && CheckOk(s, st.p)
    requires c < |s.lockOf| && s.lockOf[c] < |s.locks| ==> TakenOk(s, s.lockOf[c])
    ensures Awaits(Apply(s, st), q, c)
  {
    hide Moved;
    hide Awaits;
    if st.Change? {
      AwaitsChange(s, st, q, c);
    } else if !st.Advance? {
      AwaitsOther(s, st, q, c);
    } else if s.procs[st.p].pc.WakeGrab? {
      AwaitsGrab(s, st.p, q, c);
    } else if s.procs[st.p].pc.WakeCheck? {
      AwaitsCheck(s, st.p, q, c);
    } else {
      AwaitsMove(s, st.p, q, c);
    }
  }

  lemma StepShape(s: Sys, st: Step)
    requires Enabled(s, st)
    ensures |Apply(s, st).procs| == |s.procs| && |Apply(s, st).locks| == |s.locks| && Apply(s, st).lockOf == s.lockOf
  {
  }

  /** Every step keeps the invariant. */
  lemma StepInv(s: Sys, st: Step)
    requires Inv(s) && Enabled(s, st)
    ensures Inv(Apply(s, st))
  {
    hide Apply;
    hide Enabled;
    hide SpinOk;
    hide OwedOk;
    hide TakenOk;
    hide ReadyOk;
    hide SelfOk;
    hide CheckOk;
    hide StateOk;
    hide Tested;
    hide Awaits;
    StepShape(s, st);
    Steps(s, st);
    var s' := Apply(s, st);
    forall p | 0 <= p < |s'.procs|
      ensures SpinOk(s', p) && OwedOk(s', p) && SelfOk(s', p) && CheckOk(s', p) && StateOk(s'.procs[p], s'.lockOf)
              && Tested(s', p)
    {
      SpinStep(s, st, p);
      OwedStep(s, st, p);
      SelfStep(s, st, p);
      CheckStep(s, st, p);
      StateStep(s, st, p);
      TestedStep(s, st, p);
    }
    forall p, c: nat | 0 <= p < |s'.procs|
      ensures Awaits(s', p, c)
    {
      AwaitsStep(s, st, p, c);
    }
    forall l | 0 <= l < |s'.locks|
      ensures TakenOk(s', l) && ReadyOk(s', l)
    {
      TakenStep(s, st, l);
      ReadyStep(s, st, l);
    }
  }

  lemma Steps(s: Sys, st: Step)
    requires Enabled(s, st)
    ensures st.p < |s.procs|
  {
  }

  /** The steps of a run can be taken one after the other. */
  ghost predicate Possible(s: Sys, run: seq<Step>)
    decreases |run|
  {
    run == [] || (Enabled(s, run[0]) && Possible(Apply(s, run[0]), run[1..]))
  }

  ghost function After(s: Sys, run: seq<Step>): (r: Sys)
    requires Possible(s, run)
    decreases |run|
  {
    if run == [] then s else After(Apply(s, run[0]), run[1..])
  }

  lemma {:induction false} AfterInv(s: Sys, run: seq<Step>)
    requires Inv(s) && Possible(s, run)
    ensures Inv(After(s, run))
    decreases |run|
  {
    if run != [] {
      StepInv(s, run[0]);
      AfterInv(Apply(s, run[0]), run[1..]);
    }
  }

  /** s is where a run from the start leads. */
  ghost predicate Reachable(s: Sys, u: Setup, run: seq<Step>) {
    u.Ok() && Possible(Init(u), run) && s == After(Init(u), run)
  }

  lemma RunInv(s: Sys, u: Setup, run: seq<Step>)
    requires Reachable(s, u, run)
    ensures Inv(s)
  {
    InitInv(u);
    AfterInv(Init(u), run);
  }

  /** A process that sleeps on a channel, in any reachable state: the channel's
      condition does not hold, or the process that made it hold is still under the
      lock, owes a wakeup and has not passed the sleeper in one. */
  lemma NoLostWakeup(s: Sys, u: Setup, run: seq<Step>, p: nat, c: nat)
    requires Reachable(s, u, run) && p < |s.procs| && s.procs[p].state == Sleeping && s.procs[p].chan == Some(c)
    ensures c < |s.lockOf| && s.lockOf[c] < |s.locks|
    ensures var k := s.locks[s.lockOf[c]];
            c in k.ready ==> k.spin.Some? && Owes(s, k.spin.value, c, p)
  {
    RunInv(s, u, run);
    assert StateOk(s.procs[p], s.lockOf) && Awaits(s, p, c);
  }

  /** So no process sleeps, or is on its way to sleep, for a condition that holds
      while the lock is free. */
  lemma NoSleeper(s: Sys, u: Setup, run: seq<Step>, p: nat, c: nat)
    requires Reachable(s, u, run) && p < |s.procs| && c < |s.lockOf|
    ensures s.lockOf[c] < |s.locks|
    ensures var k := s.locks[s.lockOf[c]]; c in k.ready && k.spin == None ==> !Dozing(s.procs[p], c)
  {
    RunInv(s, u, run);
    assert Awaits(s, p, c);
  }

  /** When wakeup has passed everyone, no one is left asleep on the channel, nor
      on the way to sleep, whatever happened in between; and this stays so until
      the lock is let go. */
  lemma WakeupReaches(s: Sys, u: Setup, run: seq<Step>, w: nat, p: nat, c: nat)
    requires Reachable(s, u, run) && p < |s.procs| && w < |s.procs|
    requires s.procs[w].pc == WakeGrab(c, |s.procs|) || c in s.procs[w].woken
    requires c < |s.lockOf| && SpinOf(s.lockOf, s.procs[w].pc) == Some(s.lockOf[c])
    ensures !Dozing(s.procs[p], c)
  {
    RunInv(s, u, run);
    assert SpinOk(s, w) && Awaits(s, p, c);
  }

  /** No panic of acquire, release and sched is in reach: no one acquires a
      spinlock it holds, and who switches to the scheduler holds its own lock
      and no other. */
  lemma NoPanic(s: Sys, u: Setup, run: seq<Step>, p: nat)
    requires Reachable(s, u, run) && p < |s.procs|
    ensures var q := s.procs[p];
            && (q.pc.WantSpin? || q.pc.GoOff? ==> forall l :: 0 <= l < |s.locks| ==> s.locks[l].spin != Some(p))
            && (q.pc.GrabSelf? ==> q.lockedBy != Some(ByProc(p)))
            && (q.pc.WakeGrab? && q.pc.i < |s.procs| && q.pc.i != p ==> s.procs[q.pc.i].lockedBy != Some(ByProc(p)))
            && (q.pc.In? ==> q.pc.l < |s.locks| && s.locks[q.pc.l].spin == Some(p))
            && (q.pc.DropSpin? ==> q.pc.c < |s.lockOf| && s.lockOf[q.pc.c] < |s.locks|
                                   && s.locks[s.lockOf[q.pc.c]].spin == Some(p))
            && (q.pc.GoOff? ==> q.lockedBy == Some(ByProc(p)) && q.state == Running)
  {
    RunInv(s, u, run);
    assert SpinOk(s, p) && SelfOk(s, p) && StateOk(s.procs[p], s.lockOf);
    assert s.procs[p].pc.WakeGrab? && s.procs[p].pc.i < |s.procs| ==> SelfOk(s, s.procs[p].pc.i);
    forall l | 0 <= l < |s.locks| && s.locks[l].spin == Some(p)
      ensures SpinOf(s.lockOf, s.procs[p].pc) == Some(l)
    {
      assert TakenOk(s, l);
    }
  }

  /** The process whose own lock p is about to acquire, if any. */
  function Wanted(s: Sys, p: nat): (r: Option<nat>)
    requires p < |s.procs|
  {
    var pc := s.procs[p].pc;
    if pc.GrabSelf? then Some(p) else if pc.WakeGrab? && pc.i < |s.procs| && pc.i != p then Some(pc.i) else None
  }

  /** st is a step of whoever holds i's own lock. */
  predicate StepOfHolder(s: Sys, i: nat, st: Step)
    requires i < |s.procs|
  {
    match s.procs[i].lockedBy
    case None => false
    case Some(ByScheduler) => st == SchedulerUnlock(i)
    case Some(ByProc(q)) => st == Advance(q)
  }

  /** Spinlocks do not deadlock: whoever holds one can go on with its sleep or
      wakeup, call a wakeup that it owes, or let go; or it waits for the own lock
      of a process, and then whoever holds that can go on. */
  lemma Unstuck(s: Sys, u: Setup, run: seq<Step>, l: nat) returns (st: Step)
    requires Reachable(s, u, run) && l < |s.locks| && s.locks[l].spin.Some?
    ensures s.locks[l].spin.value < |s.procs| && Enabled(s, st)
    ensures var p := s.locks[l].spin.value;
            || (st.p == p && (st.Advance? || st.Leave? || (st.Wake? && st.c in s.procs[p].owed)))
            || (Wanted(s, p).Some? && Wanted(s, p).value < |s.procs| && StepOfHolder(s, Wanted(s, p).value, st))
  {
    RunInv(s, u, run);
    assert TakenOk(s, l);
    var p := s.locks[l].spin.value;
    assert StateOk(s.procs[p], s.lockOf) && SelfOk(s, p) && CheckOk(s, p) && SpinOk(s, p) && OwedOk(s, p)
           && ReadyOk(s, l);
    if Wanted(s, p).Some? && s.procs[Wanted(s, p).value].lockedBy.Some? {
      st := UnlockSelf(s, Wanted(s, p).value);
    } else if s.procs[p].pc.In? {
      if s.procs[p].owed == {} {
        st := Leave(p);
      } else {
        var c :| c in s.procs[p].owed;
        st := Wake(p, c);
      }
    } else {
      st := Advance(p);
    }
  }

  lemma UnlockSelf(s: Sys, i: nat) returns (st: Step)
    requires Inv(s) && i < |s.procs| && s.procs[i].lockedBy.Some?
    ensures Enabled(s, st) && StepOfHolder(s, i, st)
  {
    assert SelfOk(s, i);
    if s.procs[i].lockedBy == Some(ByScheduler) {
      st := SchedulerUnlock(i);
    } else {
      var p := s.procs[i].lockedBy.value.p;
      assert p < |s.procs|;
      assert StateOk(s.procs[p], s.lockOf) && CheckOk(s, p);
      st := Advance(p);
    }
  }
}
