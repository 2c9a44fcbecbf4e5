/** kernel/log.c over kernel/bio.c as a concurrent machine. Each step is one
    critical section or one disk transfer of one thread; any thread may move
    next, and power may fail between any two steps and in the middle of any
    block write, during recovery too. */
module LogMachine {
  import opened Base
  import opened Blocks
  import opened LogFormat
  import opened TxStore

  /** A struct buf. `users` lists who counted themselves into refcnt by bget;
      `holder` owns the sleep-lock. */
  datatype Buf = Buf(valid: bool, refcnt: nat, data: Block, holder: Option<Tid>, users: multiset<Tid>)

  /** Where a thread inside commit() or recover_from_log() stands. */
  datatype Pc =
    | LogCopy(i: nat)      // write_log, about to fill log block i
    | LogPut(i: nat)       // write_log, about to bwrite log block i
    | HeadPut              // write_head, about to bwrite the full header
    | HomeCopy(i: nat)     // install_trans, about to fill home block i
    | HomePut(i: nat)      // install_trans, about to bwrite home block i
    | ClearFill            // lh.n = 0 done, about to fill the header
    | ClearPut             // about to bwrite the empty header
    | Finished             // about to let others in again
    | ReadHead             // recovery, about to read the header

  /** `dirty` holds the blocks changed in the cache and neither logged nor
      written since; `unpinned` counts the bunpin calls of this commit; `ops`
      maps each thread between begin_op and end_op to the blocks it logged. */
  datatype Sys = Sys(
    disk: Disk, cache: map<nat, Buf>, dirty: set<nat>,
    lh: seq<nat>, unpinned: nat, outstanding: int, committing: bool,
    ops: map<Tid, set<nat>>, commits: map<Tid, Pc>, recovering: bool, panicked: bool)

  datatype Step =
    | Bget(t: Tid, b: nat, victim: Option<nat>, junk: Block)
    | Lock(t: Tid, b: nat)
    | Fill(t: Tid, b: nat)
    | Unlock(t: Tid, b: nat)
    | Unref(t: Tid, b: nat)
    | BeginOp(t: Tid)
    | Modify(t: Tid, b: nat, v: Block)
    | LogWrite(t: Tid, b: nat)
    | EndOp(t: Tid)
    | Advance(t: Tid)
    | PowerLoss(boot: Tid)
    | PowerLossInWrite(t: Tid, boot: Tid, m: Block)

  predicate Holds(s: Sys, t: Tid, b: nat) {
    b in s.cache && s.cache[b].valid && s.cache[b].holder == Some(t)
  }

  /** Blocks a thread may ask the cache for: only the log thread reads the log
      region, and during recovery no other thread runs. */
  predicate MayTouch(lay: Layout, s: Sys, t: Tid, b: nat) {
    b < lay.size && (t !in s.commits ==> lay.Home(b) && !s.recovering)
  }

  /** The block a log thread has filled and not yet written. */
  function Target(lay: Layout, s: Sys, pc: Pc): (r: Option<nat>) {
    match pc
    case LogPut(i) => Some(lay.start + 1 + i)
    case HomePut(i) => if i < |s.lh| then Some(s.lh[i]) else None
    case HeadPut => Some(lay.start)
    case ClearPut => Some(lay.start)
    case _ => None
  }

  ghost predicate Enabled(lay: Layout, s: Sys, st: Step) {
    && lay.Fits(s.disk)
    && match st
       case Bget(t, b, victim, _) =>
         && MayTouch(lay, s, t, b)
         && if b in s.cache then victim == None
            else if victim.Some? then victim.value in s.cache && s.cache[victim.value].refcnt == 0
            else |s.cache| < NBUF
       case Lock(t, b) => b in s.cache && t in s.cache[b].users && s.cache[b].holder == None
       case Fill(t, b) => b in s.cache && b < lay.size && s.cache[b].holder == Some(t) && !s.cache[b].valid
       case Unlock(t, b) => b in s.cache && s.cache[b].holder == Some(t) && b !in s.dirty
       case Unref(t, b) => b in s.cache && t in s.cache[b].users && s.cache[b].holder != Some(t)
       case BeginOp(t) =>
         && t !in s.ops && t !in s.commits && !s.recovering && !s.committing
         && |s.lh| + (s.outstanding + 1) * MAXOPBLOCKS <= LOGBLOCKS
       case Modify(t, b, _) => t in s.ops && lay.Home(b) && Holds(s, t, b)
       case LogWrite(t, b) =>
         && t in s.ops && lay.Home(b) && Holds(s, t, b)
         && (|s.ops[t]| < MAXOPBLOCKS || (b in s.ops[t] && |s.lh| < LOGBLOCKS))
       case EndOp(t) => t in s.ops && forall b :: b in s.dirty ==> b in s.cache && s.cache[b].holder != Some(t)
       case Advance(t) => t in s.commits && AdvanceEnabled(lay, s, t)
       case PowerLoss(_) => true
       case PowerLossInWrite(t, _, m) =>
         && t in s.commits && Target(lay, s, s.commits[t]).Some?
         && var b := Target(lay, s, s.commits[t]).value;
            b < lay.size && b in s.cache && Torn(s.disk[b], s.cache[b].data, m)
  }

  /** A log thread moves on once it holds, filled, the buffers it works on. */
  ghost predicate AdvanceEnabled(lay: Layout, s: Sys, t: Tid)
    requires t in s.commits && lay.Fits(s.disk)
  {
    match s.commits[t]
    case LogCopy(i) =>
      if i < |s.lh| then i < LOGBLOCKS && Holds(s, t, lay.start + 1 + i) && Holds(s, t, s.lh[i])
      else lay.HeaderOk(s.lh) && Holds(s, t, lay.start)
    case LogPut(i) => i < LOGBLOCKS && Holds(s, t, lay.start + 1 + i)
    case HeadPut => Holds(s, t, lay.start)
    case HomeCopy(i) => i < |s.lh| ==> i < LOGBLOCKS && Holds(s, t, lay.start + 1 + i) && Holds(s, t, s.lh[i])
    case HomePut(i) => i < |s.lh| && s.lh[i] < lay.size && Holds(s, t, s.lh[i]) && s.cache[s.lh[i]].refcnt > 0
    case ClearFill => Holds(s, t, lay.start)
    case ClearPut => Holds(s, t, lay.start)
    case Finished => true
    case ReadHead => Holds(s, t, lay.start) && Word(s.cache[lay.start].data, 0) <= LOGBLOCKS
  }

  ghost function Goto(s: Sys, t: Tid, pc: Pc): (r: Sys) {
    s.(commits := s.commits[t := pc])
  }

  /** memmove into a held buffer. */
  ghost function Memmove(s: Sys, b: nat, v: Block): (r: Sys)
    requires b in s.cache
  {
    s.(cache := s.cache[b := s.cache[b].(data := v)], dirty := s.dirty + {b})
  }

  /** bwrite of a held buffer. */
  ghost function Put(s: Sys, b: nat): (r: Sys)
    requires b in s.cache && b < |s.disk|
  {
    s.(disk := s.disk[b := s.cache[b].data], dirty := s.dirty - {b})
  }

  ghost function Boot(d: Disk, t: Tid): (r: Sys) {
    Sys(d, map[], {}, [], 0, 0, false, map[], map[t := ReadHead], true, false)
  }

  ghost function AdvanceStep(lay: Layout, s: Sys, t: Tid): (r: Sys)
    requires lay.Fits(s.disk) && t in s.commits && AdvanceEnabled(lay, s, t)
  {
    match s.commits[t]
    case LogCopy(i) =>
      if i < |s.lh| then Goto(Memmove(s, lay.start + 1 + i, s.cache[s.lh[i]].data), t, LogPut(i))
      else Goto(Memmove(s, lay.start, FillHeader(s.cache[lay.start].data, s.lh)), t, HeadPut)
    case LogPut(i) => Goto(Put(s, lay.start + 1 + i), t, LogCopy(i + 1))
    case HeadPut => Goto(Put(s, lay.start), t, HomeCopy(0))
    case HomeCopy(i) =>
      if i < |s.lh| then Goto(Memmove(s, s.lh[i], s.cache[lay.start + 1 + i].data), t, HomePut(i))
      else Goto(s.(lh := [], unpinned := 0), t, ClearFill)
    case HomePut(i) =>
      var p := Goto(Put(s, s.lh[i]), t, HomeCopy(i + 1));
      if s.recovering then p
      else p.(cache := p.cache[s.lh[i] := p.cache[s.lh[i]].(refcnt := p.cache[s.lh[i]].refcnt - 1)],
              unpinned := s.unpinned + 1)
    case ClearFill => Goto(Memmove(s, lay.start, FillHeader(s.cache[lay.start].data, [])), t, ClearPut)
    case ClearPut => Goto(Put(s, lay.start), t, Finished)
    case Finished => s.(commits := s.commits - {t}, committing := false, recovering := false)
    case ReadHead => Goto(s.(lh := HeaderOf(s.cache[lay.start].data)), t, HomeCopy(0))
  }

  /** bget on a block not cached: take over the victim's buffer. */
  ghost function Recycled(s: Sys, t: Tid, b: nat, victim: Option<nat>, junk: Block): (r: Sys) {
    var rest := if victim.Some? then s.cache - {victim.value} else s.cache;
    s.(cache := rest[b := Buf(false, 1, junk, None, multiset{t})])
  }

  /** begin_op once it gets past its two waiting conditions. */
  ghost function Begun(s: Sys, t: Tid): (r: Sys) {
    s.(outstanding := s.outstanding + 1, ops := s.ops[t := {}])
  }

  /** log_write: record the block number and pin the buffer unless absorbed. */
  ghost function Recorded(s: Sys, t: Tid, b: nat): (r: Sys)
    requires t in s.ops && b in s.cache
  {
    var f := s.cache[b];
    s.(cache := s.cache[b := f.(refcnt := if b in s.lh then f.refcnt else f.refcnt + 1)],
       lh := Absorb(s.lh, b), dirty := s.dirty - {b}, ops := s.ops[t := s.ops[t] + {b}])
  }

  /** end_op: the last operation out becomes the committer. */
  ghost function Ended(s: Sys, t: Tid): (r: Sys) {
    var e := s.(outstanding := s.outstanding - 1, ops := s.ops - {t});
    if e.outstanding != 0 then e
    else e.(committing := true, commits := s.commits[t := if |s.lh| > 0 then LogCopy(0) else Finished])
  }

  ghost function Apply(lay: Layout, s: Sys, st: Step): (r: Sys)
    requires Enabled(lay, s, st)
  {
    match st
    case Bget(t, b, victim, junk) =>
      if b in s.cache then
        var f := s.cache[b];
        s.(cache := s.cache[b := f.(refcnt := f.refcnt + 1, users := f.users + multiset{t})])
      else
        Recycled(s, t, b, victim, junk)
    case Lock(t, b) => s.(cache := s.cache[b := s.cache[b].(holder := Some(t))])
    case Fill(t, b) => s.(cache := s.cache[b := s.cache[b].(valid := true, data := s.disk[b])])
    case Unlock(t, b) => s.(cache := s.cache[b := s.cache[b].(holder := None)])
    case Unref(t, b) =>
      var f := s.cache[b];
      if f.refcnt == 0 then s.(panicked := true)
      else s.(cache := s.cache[b := f.(refcnt := f.refcnt - 1, users := f.users - multiset{t})])
    case BeginOp(t) => Begun(s, t)
    case Modify(t, b, v) => Memmove(s, b, v)
    case LogWrite(t, b) =>
      if |s.lh| >= LOGBLOCKS || s.outstanding < 1 then s.(panicked := true) else Recorded(s, t, b)
    case EndOp(t) =>
      if s.committing then s.(panicked := true) else Ended(s, t)
    case Advance(t) => AdvanceStep(lay, s, t)
    case PowerLoss(boot) => Boot(s.disk, boot)
    case PowerLossInWrite(t, boot, m) => Boot(s.disk[Target(lay, s, s.commits[t]).value := m], boot)
  }
}
