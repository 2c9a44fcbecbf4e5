/** A commit comes to its end: the log thread has so many moves to make, whatever other
    threads do in between, and then all that was written is durable. */
module LogProgress {
  import opened Base
  import opened Blocks
  import opened LogFormat
  import opened TxStore
  import opened LogMachine
  import opened LogProof
  import opened LogCommitProof

  /** The moves that a log thread at pc with n blocks in the log has left. */
  function Left(pc: Pc, n: nat): (r: int) {
    match pc
    case ReadHead => 5 + 2 * LOGBLOCKS
    case LogCopy(i) => 6 + 2 * n + 2 * (n - i)
    case LogPut(i) => 5 + 2 * n + 2 * (n - i)
    case HeadPut => 5 + 2 * n
    case HomeCopy(i) => 4 + 2 * (n - i)
    case HomePut(i) => 3 + 2 * (n - i)
    case ClearFill => 3
    case ClearPut => 2
    case Finished => 1
  }

  /** It works on blocks that are in the log. */
  predicate InRange(pc: Pc, n: nat) {
    match pc
    case LogCopy(i) => i <= n
    case LogPut(i) => i < n
    case HomeCopy(i) => i <= n
    case HomePut(i) => i < n
    case _ => true
  }

  lemma PcRange(lay: Layout, s: Sys, t: Tid)
    requires t in s.commits && lay.DiskOk(s.disk) && lay.HeaderOk(s.lh) && PcInv(lay, s, t)
    ensures InRange(s.commits[t], |s.lh|)
  {
    hide HeaderOf;
    hide Word;
    hide Installed;
  }

  lemma HeaderShort(b: Block)
    requires Word(b, 0) <= LOGBLOCKS
    ensures |HeaderOf(b)| <= LOGBLOCKS
  {
  }

  lemma AdvanceLeft(lay: Layout, s: Sys, t: Tid)
    requires lay.Fits(s.disk) && t in s.commits && AdvanceEnabled(lay, s, t) && InRange(s.commits[t], |s.lh|)
    ensures var r := AdvanceStep(lay, s, t);
            if s.commits[t] == Finished then r.commits == s.commits - {t} && r.ops == s.ops
            else t in r.commits && Left(r.commits[t], |r.lh|) < Left(s.commits[t], |s.lh|)
  {
    hide Word;
    hide HeaderOf;
    hide FillHeader;
    if s.commits[t] == ReadHead {
      HeaderShort(s.cache[lay.start].data);
    }
  }

  /** Each of its moves is one of them. */
  lemma Nearer(lay: Layout, s: Sys, t: Tid)
    requires Inv(lay, s) && Enabled(lay, s, Advance(t))
    ensures var r := Apply(lay, s, Advance(t));
            && (t in r.commits ==> Left(r.commits[t], |r.lh|) < Left(s.commits[t], |s.lh|))
            && (t !in r.commits ==> r.commits == map[] && r.ops == map[])
  {
    Parts(lay, s);
    hide Inv;
    hide CacheInv;
    hide DirtyInv;
    hide CommitInv;
    hide OpInv;
    hide PcInv;
    hide AdvanceStep;
    hide AdvanceEnabled;
    LogThreadAlone(lay, s, t);
    PcRange(lay, s, t);
    AdvanceLeft(lay, s, t);
  }

  predicate IsPowerLoss(st: Step) {
    st.PowerLoss? || st.PowerLossInWrite?
  }

  /** No other step but a loss of power is about the log. */
  lemma Undisturbed(lay: Layout, s: Sys, t: Tid, st: Step)
    requires Inv(lay, s) && t in s.commits && Enabled(lay, s, st) && st != Advance(t) && !IsPowerLoss(st)
    ensures var r := Apply(lay, s, st); r.commits == s.commits && r.lh == s.lh && r.ops == s.ops
  {
    Parts(lay, s);
    hide CacheInv;
    hide DirtyInv;
    LogThreadAlone(lay, s, t);
    hide CommitInv;
    hide OpInv;
  }

  lemma NoCrash(s: Sys, st: Step, e: Event)
    requires Matches(s, st, e) && !IsPowerLoss(st)
    ensures e != Crash && e != CommitThenCrash
  {
  }

  /** What readers see stays while the log thread is at work. */
  lemma Unseen(lay: Layout, s: Sys, t: Tid, st: Step)
    requires Inv(lay, s) && t in s.commits && Enabled(lay, s, st) && !IsPowerLoss(st)
    ensures Inv(lay, Apply(lay, s, st)) && lay.DiskOk(s.disk) && lay.DiskOk(Apply(lay, s, st).disk)
    ensures Alpha(lay, Apply(lay, s, st)).current == Alpha(lay, s).current
  {
    hide Inv;
    hide Apply;
    hide Alpha;
    hide Enabled;
    hide Matches;
    Parts(lay, s);
    var e := StepSimulates(lay, s, st);
    NoCrash(s, st, e);
    Alone(lay, s, t);
    Parts(lay, Apply(lay, s, st));
    ActiveAre(lay, s);
  }

  lemma Alone(lay: Layout, s: Sys, t: Tid)
    requires Inv(lay, s) && t in s.commits
    ensures s.ops == map[] && s.commits.Keys == {t} && (s.committing || s.recovering)
  {
    hide CacheInv;
    hide DirtyInv;
    hide CommitInv;
    hide OpInv;
    Parts(lay, s);
    LogThreadAlone(lay, s, t);
  }

  ghost predicate AtRest(s: Sys) {
    s.ops == map[] && s.commits == map[]
  }

  /** On the way of the run the system rests with exactly the contents m on disk. */
  ghost predicate ComesToRest(lay: Layout, s: Sys, run: seq<Step>, m: map<nat, Block>)
    decreases |run|
  {
    || (AtRest(s) && lay.DiskOk(s.disk) && Alpha(lay, s).durable == m)
    || (run != [] && Enabled(lay, s, run[0]) && ComesToRest(lay, Apply(lay, s, run[0]), run[1..], m))
  }

  function MovesOf(t: Tid, run: seq<Step>): (r: nat)
    ensures r <= |run|
  {
    if run == [] then 0 else (if run[0] == Advance(t) then 1 else 0) + MovesOf(t, run[1..])
  }

  /** When the log thread has made its moves, what readers saw when it began is durable. */
  lemma {:induction false} CommitEnds(lay: Layout, s: Sys, t: Tid, run: seq<Step>, z: Sys)
    requires Inv(lay, s) && t in s.commits && Run(lay, s, run, z)
    requires forall i :: 0 <= i < |run| ==> !IsPowerLoss(run[i])
    requires MovesOf(t, run) >= Left(s.commits[t], |s.lh|)
    ensures lay.DiskOk(s.disk) && ComesToRest(lay, s, run, Alpha(lay, s).current)
    decreases |run|
  {
    hide Inv;
    hide Enabled;
    hide Apply;
    hide Alpha;
    Parts(lay, s);
    if run == [] {
      LeftIs(lay, s, t);
    } else {
      var st, r := run[0], Apply(lay, s, run[0]);
      Unseen(lay, s, t, st);
      Alone(lay, s, t);
      if st == Advance(t) {
        Nearer(lay, s, t);
        if t in r.commits {
          CommitEnds(lay, r, t, run[1..], z);
        } else {
          RestIsDurable(lay, r);
          assert ComesToRest(lay, r, run[1..], Alpha(lay, s).current);
        }
      } else {
        Undisturbed(lay, s, t, st);
        CommitEnds(lay, r, t, run[1..], z);
      }
    }
  }

  lemma LeftIs(lay: Layout, s: Sys, t: Tid)
    requires Inv(lay, s) && t in s.commits
    ensures Left(s.commits[t], |s.lh|) > 0
  {
    Parts(lay, s);
    hide *;
    LogThreadAlone(lay, s, t);
    PcRange(lay, s, t);
    Positive(s.commits[t], |s.lh|);
  }

  lemma Positive(pc: Pc, n: nat)
    requires InRange(pc, n)
    ensures Left(pc, n) > 0
  {
  }
}
