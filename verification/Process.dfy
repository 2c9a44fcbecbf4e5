/** Processes as users of memory (allocproc, freeproc and the memory part of
    kfork in kernel/proc.c, the switch of kexec in kernel/exec.c): each has a
    trapframe page and an address space, and no mix of operations loses a page
    or gives one to two processes. */
module Process {
  import opened Base
  import opened PageTable
  import opened Vm
  import opened UserMemory
  import opened Teardown
  import opened ProcMemory
  import opened Argv
  import opened Exec

  /** The trapframe entry of an address space names a page that is this
      space's trapframe and nothing else. */
  ghost predicate FrameAt(tables: Tables, use: Uses, root: nat) {
    && Lookup(tables, root, TRAPFRAME).v
    && Lookup(tables, root, TRAPFRAME).ppn in use && use[Lookup(tables, root, TRAPFRAME).ppn] == Frame(root)
  }

  /** Every address space has its trapframe, and there are no others. */
  ghost predicate FramesOk(tables: Tables, use: Uses) {
    && (forall r: nat :: IsRoot(tables, use, r) ==> FrameAt(tables, use, r))
    && (forall f :: f in use && use[f].Frame? ==>
          IsRoot(tables, use, use[f].root) && Lookup(tables, use[f].root, TRAPFRAME).ppn == f)
  }

  ghost predicate System(vm: Vm)
    reads vm
  {
    vm.Valid() && TopOk(vm.tables, vm.use) && FramesOk(vm.tables, vm.use)
  }

  /** The memory of struct proc. */
  class Proc {
    var trapframe: Option<nat>
    var pagetable: Option<nat>
    var sz: nat

    constructor ()
      ensures Unused()
    {
      trapframe, pagetable, sz := None, None, 0;
    }

    predicate Unused()
      reads this
    {
      trapframe.None? && pagetable.None? && sz == 0
    }

    ghost predicate Runs(vm: Vm)
      reads this, vm
    {
      && System(vm) && trapframe.Some? && pagetable.Some? && Space(vm, pagetable.value, sz)
      && Lookup(vm.tables, pagetable.value, TRAPFRAME).ppn == trapframe.value
    }
  }

  /** A free page has become the trapframe of a new address space, which took
      free pages besides; nothing else has changed. */
  ghost predicate Made(t0: Tables, u0: Uses, t1: Tables, u1: Uses, root: nat, f: nat) {
    f in u0 && u0[f].Free? && !IsRoot(t0, u0, root) && Only(t0, u0[f := Frame(root)], t1, u1, root)
  }

  /** The pages of an address space and a trapframe page are free. */
  ghost predicate Returned(u0: Uses, u1: Uses, root: Option<nat>, f: Option<nat>) {
    && u1.Keys == u0.Keys
    && forall p :: p in u0 ==> u1[p] == if (root.Some? && Ours(u0[p], root.value)) || f == Some(p) then Free else u0[p]
  }

  lemma FramesTag(tables: Tables, use: Uses, f: nat, x: Use)
    requires FramesOk(tables, use) && f in use && !use[f].Frame? && !x.Frame?
    requires SameMap(tables, use, tables, use[f := x])
    ensures FramesOk(tables, use[f := x])
  {
    hide Lookup;
    hide IsRoot;
  }

  lemma FramesSame(t0: Tables, t1: Tables, use: Uses)
    requires FramesOk(t0, use) && SameMap(t0, use, t1, use)
    ensures FramesOk(t1, use)
  {
    hide Lookup;
    hide IsRoot;
  }

  /** Whatever one process does to its address space below the trapframe, every
      process keeps its trapframe. */
  lemma FramesOnly(t0: Tables, u0: Uses, t1: Tables, u1: Uses, root: nat)
    requires FramesOk(t0, u0) && Only(t0, u0, t1, u1, root) && TopSame(t0, t1, root)
    requires IsRoot(t0, u0, root) && IsRoot(t1, u1, root)
    ensures FramesOk(t1, u1) && Lookup(t1, root, TRAPFRAME) == Lookup(t0, root, TRAPFRAME)
  {
    hide Lookup;
    hide IsRoot;
    forall r: nat | IsRoot(t1, u1, r)
      ensures FrameAt(t1, u1, r)
    {
      assert FrameAt(t0, u0, r);
    }
  }

  /** allocproc: the page kalloc gave is the new space's trapframe. */
  lemma FramesNew(t0: Tables, u0: Uses, t1: Tables, u1: Uses, root: nat, f: nat)
    requires FramesOk(t0, u0) && f in u0 && u0[f].Held? && !IsRoot(t0, u0, root) && IsRoot(t1, u1, root)
    requires Only(t0, u0, t1, u1, root) && SameMap(t1, u1, t1, u1[f := Frame(root)])
    requires Lookup(t1, root, TRAPFRAME) == KernelRw.(v := true, ppn := f)
    ensures FramesOk(t1, u1[f := Frame(root)])
  {
    hide Lookup;
    hide IsRoot;
    var u2 := u1[f := Frame(root)];
    forall r: nat | IsRoot(t1, u2, r)
      ensures FrameAt(t1, u2, r)
    {
      if r != root {
        assert FrameAt(t0, u0, r);
      }
    }
  }

  lemma NewMade(t0: Tables, u0: Uses, t1: Tables, u1: Uses, root: nat, f: nat)
    requires f in u0 && u0[f].Free? && !IsRoot(t0, u0, root) && SameMap(t0, u0, t0, u0[f := Held])
    requires Only(t0, u0[f := Held], t1, u1, root) && SameMap(t1, u1, t1, u1[f := Frame(root)])
             && SameMap(t0, u0, t0, u0[f := Frame(root)])
    ensures Made(t0, u0, t1, u1[f := Frame(root)], root, f)
  {
    hide Lookup;
    hide IsRoot;
  }

  /** freeproc: the trapframe goes with the address space. */
  lemma FramesGone(t0: Tables, u0: Uses, t1: Tables, u1: Uses, root: nat, f: nat)
    requires FramesOk(t0, u0) && TopOk(t0, u0) && IsRoot(t0, u0, root) && Lookup(t0, root, TRAPFRAME).ppn == f
             && f in u0
    requires SameMap(t0, u0, t0, u0[f := Free]) && Gone(u0[f := Free], u1, root)
             && OthersMap(t0, u0[f := Free], t1, u1, root)
    requires !IsRoot(t1, u1, root)
    ensures FramesOk(t1, u1) && TopOk(t1, u1) && Returned(u0, u1, Some(root), Some(f))
            && OthersMap(t0, u0, t1, u1, root)
  {
    hide Lookup;
    hide IsRoot;
    forall r: nat | IsRoot(t1, u1, r)
      ensures FrameAt(t1, u1, r)
    {
      assert FrameAt(t0, u0, r);
    }
  }

  /** What was made and returned leaves no trace. */
  lemma MadeReturned(t0: Tables, u0: Uses, t1: Tables, u1: Uses, t2: Tables, u2: Uses, root: nat, f: nat)
    requires TablesOk(t0, u0) && LeavesOk(t0, u0) && Made(t0, u0, t1, u1, root, f)
             && SameMap(t0, u0, t0, u0[f := Frame(root)])
    requires Returned(u1, u2, Some(root), Some(f)) && OthersMap(t1, u1, t2, u2, root) && !IsRoot(t2, u2, root)
    ensures u2 == u0 && SameMap(t0, u0, t2, u2)
  {
    hide Lookup;
    hide IsRoot;
    hide TablesOk;
    hide LeavesOk;
    NoneOurs(t0, u0, root);
    forall r: nat, v: nat | IsRoot(t0, u0, r) && v < NVPN
      ensures Lookup(t2, r, v) == Lookup(t0, r, v)
    {
      assert Lookup(t2, r, v) == Lookup(t1, r, v);
    }
  }

  /** freeproc, of a process with a trapframe and an address space, with a
      trapframe only, or with neither. */
  method Freeproc(vm: Vm, p: Proc)
    requires System(vm) && (p.pagetable.Some? ==> p.Runs(vm))
    requires p.pagetable.None? && p.trapframe.Some? ==> p.trapframe.value in vm.use && vm.use[p.trapframe.value].Held?
    modifies vm`tables, vm`free, vm`use, p
    ensures System(vm) && p.Unused()
    ensures Returned(old(vm.use), vm.use, old(p.pagetable), old(p.trapframe))
    ensures old(p.pagetable).None? ==> SameMap(old(vm.tables), old(vm.use), vm.tables, vm.use)
    ensures old(p.pagetable).Some? ==>
              && !IsRoot(vm.tables, vm.use, old(p.pagetable).value)
              && OthersMap(old(vm.tables), old(vm.use), vm.tables, vm.use, old(p.pagetable).value)
  {
    hide TablesOk;
    hide FreeOk;
    hide LeavesOk;
    hide DataOk;
    hide Lookup;
    hide IsRoot;
    hide TopOk;
    hide FramesOk;
    hide OthersMap;
    hide Bounded;
    hide SameMap;
    hide Gone;
    ghost var t0, u0 := vm.tables, vm.use;
    SameMapRefl(t0, u0);
    if p.trapframe.Some? {
      ghost var f := p.trapframe.value;
      FrameUse(vm, p);
      vm.Kfree(p.trapframe.value);
      Retag(t0, u0, f, Free);
      UntagData(vm.data, u0, f, Free);
      if p.pagetable.None? {
        FramesTag(t0, u0, f, Free);
        SameTop(t0, u0, t0, vm.use);
      }
    }
    p.trapframe := None;
    if p.pagetable.Some? {
      ghost var root, f := p.pagetable.value, old(p.trapframe).value;
      SameSpace(t0, u0, vm.use, root, p.sz);
      var panic := FreePagetable(vm, p.pagetable.value, p.sz);
      FramesGone(t0, u0, vm.tables, vm.use, root, f);
    }
    p.pagetable := None;
    p.sz := 0;
  }

  lemma FrameUse(vm: Vm, p: Proc)
    requires p.pagetable.Some? ==> p.Runs(vm)
    requires p.pagetable.None? && p.trapframe.Some? ==> p.trapframe.value in vm.use && vm.use[p.trapframe.value].Held?
    ensures p.trapframe.Some? ==> p.trapframe.value in vm.use
    ensures p.trapframe.Some? ==>
              vm.use[p.trapframe.value] == if p.pagetable.Some? then Frame(p.pagetable.value) else Held
  {
    hide Lookup;
    hide IsRoot;
    if p.pagetable.Some? {
      assert FrameAt(vm.tables, vm.use, p.pagetable.value);
    }
  }

  lemma UntagData(data: Contents, use: Uses, f: nat, x: Use)
    requires DataOk(data, use) && f in use && !x.Leaf?
    ensures DataOk(data, use[f := x])
  {
  }

  lemma SameSpace(tables: Tables, u0: Uses, u1: Uses, root: nat, sz: nat)
    requires SameMap(tables, u0, tables, u1) && IsRoot(tables, u0, root)
    ensures IsRoot(tables, u1, root)
  {
    hide Lookup;
    hide IsRoot;
  }

  /** allocproc, once a free slot of the process table is found: a process with
      a trapframe and an empty address space, or everything as it was. */
  method Allocproc(vm: Vm, p: Proc, trampoline: nat) returns (ok: bool)
    requires System(vm) && p.Unused()
    modifies vm`tables, vm`free, vm`use, p
    ensures System(vm)
    ensures ok ==>
              && p.Runs(vm) && p.sz == 0 && Fresh(vm.tables, p.pagetable.value, trampoline, p.trapframe.value)
              && Made(old(vm.tables), old(vm.use), vm.tables, vm.use, p.pagetable.value, p.trapframe.value)
    ensures !ok ==> p.Unused() && vm.use == old(vm.use) && SameMap(old(vm.tables), old(vm.use), vm.tables, vm.use)
    ensures if ok then |vm.free| + 1 + PERSPACE >= |old(vm.free)| else |old(vm.free)| < 1 + PERSPACE
  {
    hide TablesOk;
    hide FreeOk;
    hide LeavesOk;
    hide DataOk;
    hide Lookup;
    hide IsRoot;
    hide TopOk;
    hide FramesOk;
    hide OthersMap;
    hide Only;
    hide Made;
    hide Bounded;
    hide SameMap;
    hide Fresh;
    ghost var t0, u0 := vm.tables, vm.use;
    SameMapRefl(t0, u0);
    p.trapframe := vm.Kalloc();
    if p.trapframe.None? {
      Freeproc(vm, p);
      ReturnedNone(u0, vm.use);
      return false;
    }
    ghost var f := p.trapframe.value;
    Retag(t0, u0, f, Held);
    UntagData(vm.data, u0, f, Held);
    FramesTag(t0, u0, f, Held);
    SameTop(t0, u0, t0, vm.use);
    p.pagetable := ProcPagetable(vm, trampoline, p.trapframe.value);
    ghost var t1, u1 := vm.tables, vm.use;
    if p.pagetable.None? {
      FramesSame(t0, t1, u1);
      Freeproc(vm, p);
      SameMapTrans(t0, u0, t0, u1, t1, u1);
      SameMapTrans(t0, u0, t1, u1, vm.tables, vm.use);
      ReturnedHeld(u0, vm.use, f);
      return false;
    }
    ghost var root := p.pagetable.value;
    assert f in u1 && u1[f].Held? by {
      StillHeld(t0, u0[f := Held], t1, u1, root, f);
    }
    Retag(t1, u1, f, Frame(root));
    Retag(t0, u0, f, Frame(root));
    NewFrame(t0, u0, t1, u1, root, trampoline, f);
    FreeStays(vm.free, u1, f, Frame(root));
    UntagData(vm.data, u1, f, Frame(root));
    SameTop(t1, u1, t1, u1[f := Frame(root)]);
    SameSpace(t1, u1, u1[f := Frame(root)], root, 0);
    vm.use := vm.use[f := Frame(root)];
    ok := true;
  }

  lemma NewFrame(t0: Tables, u0: Uses, t1: Tables, u1: Uses, root: nat, trampoline: nat, f: nat)
    requires FramesOk(t0, u0[f := Held]) && f in u0 && u0[f].Free? && !IsRoot(t0, u0[f := Held], root)
             && IsRoot(t1, u1, root)
    requires SameMap(t0, u0, t0, u0[f := Held]) && SameMap(t0, u0, t0, u0[f := Frame(root)])
             && SameMap(t1, u1, t1, u1[f := Frame(root)])
    requires Only(t0, u0[f := Held], t1, u1, root) && Fresh(t1, root, trampoline, f)
    ensures FramesOk(t1, u1[f := Frame(root)]) && Made(t0, u0, t1, u1[f := Frame(root)], root, f)
    ensures Bounded(t1, root, 0) && Lookup(t1, root, TRAPFRAME).ppn == f
  {
    hide Lookup;
    hide IsRoot;
    hide FramesOk;
    hide Only;
    hide Made;
    FramesNew(t0, u0[f := Held], t1, u1, root, f);
    NewMade(t0, u0, t1, u1, root, f);
  }

  lemma StillHeld(t0: Tables, u0: Uses, t1: Tables, u1: Uses, root: nat, f: nat)
    requires Only(t0, u0, t1, u1, root) && f in u0 && u0[f].Held?
    ensures f in u1 && u1[f].Held?
  {
    hide OthersMap;
  }

  lemma ReturnedNone(u0: Uses, u1: Uses)
    requires Returned(u0, u1, None, None)
    ensures u1 == u0
  {
  }

  lemma ReturnedHeld(u0: Uses, u1: Uses, f: nat)
    requires f in u0 && u0[f].Free? && Returned(u0[f := Held], u1, None, Some(f))
    ensures u1 == u0
  {
  }

  /** The memory part of kfork: a child with a trapframe of its own that sees
      what its parent sees, or, for want of memory, everything as it was. */
  method Kfork(vm: Vm, p: Proc, np: Proc, trampoline: nat) returns (ok: bool)
    requires p.Runs(vm) && np.Unused() && p != np
    modifies vm, np
    ensures System(vm) && KeepsData(old(vm.use), old(vm.data), vm.data)
    ensures p.Runs(vm)
    ensures !ok ==> np.Unused() && vm.use == old(vm.use) && SameMap(old(vm.tables), old(vm.use), vm.tables, vm.use)
    ensures ok ==>
              && np.Runs(vm) && np.sz == p.sz && EntryAt(vm.tables, np.pagetable.value, trampoline)
              && Made(old(vm.tables), old(vm.use), vm.tables, vm.use, np.pagetable.value, np.trapframe.value)
              && Twins(old(vm.tables), old(vm.data), vm.tables, vm.data, p.pagetable.value, np.pagetable.value, p.sz)
    ensures !ok ==> |old(vm.free)| < 1 + PERSPACE + PERPAGE * Up(p.sz)
  {
    hide TablesOk;
    hide FreeOk;
    hide LeavesOk;
    hide DataOk;
    hide Lookup;
    hide IsRoot;
    hide TopOk;
    hide FramesOk;
    hide OthersMap;
    hide Only;
    hide Made;
    hide Bounded;
    hide TopSame;
    hide Copied;
    hide SameContents;
    hide SameMap;
    hide Took;
    hide PageView;
    hide Rights;
    hide EntryAt;
    hide Fresh;
    hide Returned;
    hide KeepsData;
    ghost var t0, u0, d0 := vm.tables, vm.use, vm.data;
    KeepsAll(u0, d0);
    ok := Allocproc(vm, np, trampoline);
    if !ok {
      StillRuns(t0, u0, vm.tables, vm.use, p.pagetable.value, p.sz);
      return;
    }
    ghost var parent, child, f := p.pagetable.value, np.pagetable.value, np.trapframe.value;
    ghost var t1, u1 := vm.tables, vm.use;
    MadeBeside(t0, u0, t1, u1, d0, parent, child, f, p.sz, trampoline);
    ok := vm.Uvmcopy(p.pagetable.value, np.pagetable.value, p.sz);
    ghost var t2, u2, d2 := vm.tables, vm.use, vm.data;
    MadeData(t0, u0, t1, u1, d0, d2, child, f);
    if ok {
      CopiedOnly(t1, u1, t2, u2, parent, child, p.sz);
      FreshEntry(t1, child, trampoline, f);
      EntryTop(t1, t2, child, trampoline);
      FramesOnly(t1, u1, t2, u2, child);
      MadeMore(t0, u0, t1, u1, t2, u2, child, f);
      ParentFrame(t1, u1, t2, u2, parent, child);
      forall v: nat
        ensures PageView(t2, d2, child, p.sz, v) == PageView(t0, d0, parent, p.sz, v) ==
                  PageView(t2, d2, parent, p.sz, v)
        ensures Rights(t2, child, p.sz, v) == Rights(t0, parent, p.sz, v)
      {
        ChildSees(t1, u1, d0, t2, u2, d2, parent, child, p.sz, v);
      }
      np.sz := p.sz;
    } else {
      SameOnly(t1, u1, t2, u2, child);
      SameTop(t1, u1, t2, u2);
      FramesOnly(t1, u1, t2, u2, child);
      MadeMore(t0, u0, t1, u1, t2, u2, child, f);
      Freeproc(vm, np);
      MadeFreed(t0, u0, t2, u2, vm.tables, vm.use, child, f);
      StillRuns(t0, u0, vm.tables, vm.use, parent, p.sz);
    }
  }

  /** A process is where it was when every flat map is. */
  lemma StillRuns(t0: Tables, u0: Uses, t1: Tables, u1: Uses, root: nat, sz: nat)
    requires SameMap(t0, u0, t1, u1) && IsRoot(t0, u0, root) && Bounded(t0, root, sz)
    ensures IsRoot(t1, u1, root) && Bounded(t1, root, sz) && Lookup(t1, root, TRAPFRAME) == Lookup(t0, root, TRAPFRAME)
  {
    hide Lookup;
    hide IsRoot;
  }

  /** The parent beside its new child. */
  lemma MadeBeside(t0: Tables, u0: Uses, t1: Tables, u1: Uses, d: Contents, parent: nat, child: nat, f: nat, sz: nat,
                   trampoline: nat)
    requires TablesOk(t0, u0) && LeavesOk(t0, u0)
    requires Made(t0, u0, t1, u1, child, f) && Fresh(t1, child, trampoline, f) && IsRoot(t0, u0, parent)
             && Bounded(t0, parent, sz)
    ensures parent != child && IsRoot(t1, u1, parent) && Bounded(t1, parent, sz)
    ensures Lookup(t1, parent, TRAPFRAME) == Lookup(t0, parent, TRAPFRAME)
    ensures forall s: nat :: Bounded(t1, child, s)
    ensures forall v: nat :: v < TRAPFRAME ==> !Lookup(t1, child, v).v
    ensures forall s: nat, v: nat :: PageView(t1, d, parent, s, v) == PageView(t0, d, parent, s, v)
    ensures forall s: nat, v: nat :: Rights(t1, parent, s, v) == Rights(t0, parent, s, v)
  {
    hide Lookup;
    hide IsRoot;
    hide TablesOk;
    hide LeavesOk;
    Retag(t0, u0, f, Frame(child));
    FreshSpace(t0, u0[f := Frame(child)], t1, u1, parent, child, sz, trampoline, f);
    assert OthersMap(t0, u0[f := Frame(child)], t1, u1, child);
    assert Lookup(t1, parent, TRAPFRAME) == Lookup(t0, parent, TRAPFRAME);
  }

  lemma MadeData(t0: Tables, u0: Uses, t1: Tables, u1: Uses, d0: Contents, d1: Contents, root: nat, f: nat)
    requires TablesOk(t0, u0) && LeavesOk(t0, u0) && Made(t0, u0, t1, u1, root, f) && KeepsData(u1, d0, d1)
    ensures KeepsData(u0, d0, d1)
  {
    hide TablesOk;
    hide LeavesOk;
    hide IsRoot;
    hide OthersMap;
    NoneOurs(t0, u0, root);
  }

  lemma MadeMore(t0: Tables, u0: Uses, t1: Tables, u1: Uses, t2: Tables, u2: Uses, root: nat, f: nat)
    requires Made(t0, u0, t1, u1, root, f) && Only(t1, u1, t2, u2, root)
    ensures Made(t0, u0, t2, u2, root, f)
  {
    hide IsRoot;
    hide Only;
    OnlyTrans(t0, u0[f := Frame(root)], t1, u1, t2, u2, root);
  }

  lemma ParentFrame(t0: Tables, u0: Uses, t1: Tables, u1: Uses, parent: nat, child: nat)
    requires Only(t0, u0, t1, u1, child) && parent != child && IsRoot(t0, u0, parent)
    ensures Lookup(t1, parent, TRAPFRAME) == Lookup(t0, parent, TRAPFRAME)
  {
    hide Lookup;
    hide IsRoot;
  }

  lemma MadeFreed(t0: Tables, u0: Uses, t1: Tables, u1: Uses, t2: Tables, u2: Uses, root: nat, f: nat)
    requires TablesOk(t0, u0) && LeavesOk(t0, u0) && Made(t0, u0, t1, u1, root, f)
    requires Returned(u1, u2, Some(root), Some(f)) && OthersMap(t1, u1, t2, u2, root) && !IsRoot(t2, u2, root)
    ensures u2 == u0 && SameMap(t0, u0, t2, u2)
  {
    hide TablesOk;
    hide LeavesOk;
    hide IsRoot;
    hide Only;
    hide OthersMap;
    hide SameMap;
    hide Returned;
    Retag(t0, u0, f, Frame(root));
    MadeReturned(t0, u0, t1, u1, t2, u2, root, f);
  }

  /** No address space there was sees a difference. */
  ghost predicate Unseen(t0: Tables, u0: Uses, d0: Contents, t1: Tables, d1: Contents) {
    forall r: nat, s: nat, v: nat :: IsRoot(t0, u0, r) ==> PageView(t1, d1, r, s, v) == PageView(t0, d0, r, s, v)
  }

  /** kexec for a process: the trapframe now goes with the new image. */
  method ExecProc(vm: Vm, p: Proc, trampoline: nat, segs: seq<Segment>, argv: seq<seq<Byte>>)
      returns (ok: bool, sp: nat)
    requires p.Runs(vm) && |argv| < MAXARG && |vm.use| < TRAPFRAME
    modifies vm, p
    ensures p.Runs(vm) && p.trapframe == old(p.trapframe) && vm.use.Keys == old(vm.use).Keys
    ensures !ok ==>
              && p.pagetable == old(p.pagetable) && p.sz == old(p.sz)
              && vm.use == old(vm.use) && SameMap(old(vm.tables), old(vm.use), vm.tables, vm.use)
              && Unseen(old(vm.tables), old(vm.use), old(vm.data), vm.tables, vm.data)
    ensures ok ==>
              && Started(vm.tables, vm.data, p.pagetable.value, p.sz, segs, argv) && sp == ArgvSp(p.sz, argv)
              && Startable(segs, argv) && EntryAt(vm.tables, p.pagetable.value, trampoline)
              && Succeeds(old(vm.tables), old(vm.use), vm.tables, vm.use, old(p.pagetable).value, p.pagetable.value,
                          p.trapframe.value)
              && OthersStay(old(vm.tables), old(vm.use), old(vm.data), vm.tables, vm.use, vm.data,
                            old(p.pagetable).value, p.pagetable.value)
    ensures !ok ==> !Startable(segs, argv) || |old(vm.free)| < PERSPACE + PERPAGE * (Up(ImageEnd(segs)) + USERSTACK + 1)
  {
    hide TablesOk;
    hide FreeOk;
    hide LeavesOk;
    hide DataOk;
    hide Lookup;
    hide IsRoot;
    hide TopOk;
    hide FramesOk;
    hide Bounded;
    hide SameMap;
    hide PageView;
    hide Replaced;
    hide OthersStay;
    hide Started;
    hide Startable;
    hide ImageEnd;
    hide Succeeds;
    ghost var t0, u0, d0, root, f := vm.tables, vm.use, vm.data, p.pagetable.value, p.trapframe.value;
    FrameUse(vm, p);
    var root', sz';
    ok, root', sz', sp := Kexec(vm, p.pagetable.value, p.sz, trampoline, p.trapframe.value, segs, argv);
    ghost var t1, u1 := vm.tables, vm.use;
    if !ok {
      SameTop(t0, u0, t1, u1);
      FramesSame(t0, t1, u1);
      StillRuns(t0, u0, t1, u1, root, p.sz);
      return;
    }
    FrameKept(u0, u1, root, root', f);
    Retag(t1, u1, f, Frame(root'));
    FrameMoved(t0, u0, d0, t1, u1, vm.data, root, root', f);
    FreeStays(vm.free, u1, f, Frame(root'));
    UntagData(vm.data, u1, f, Frame(root'));
    SameTop(t1, u1, t1, u1[f := Frame(root')]);
    StillRuns(t1, u1, t1, u1[f := Frame(root')], root', sz');
    p.pagetable, p.sz := Some(root'), sz';
    vm.use := vm.use[f := Frame(root')];
  }

  /** The pages of the old image are free or in the new one, whose trapframe is
      the old one's; no other page has changed hands. */
  ghost predicate Succeeds(t0: Tables, u0: Uses, t1: Tables, u1: Uses, root: nat, root': nat, f: nat) {
    && f in u0 && u0[f] == Frame(root) && f in u1 && u1[f] == Frame(root')
    && Replaced(u0, u1[f := Frame(root)], root, root') && !IsRoot(t0, u0, root') && !IsRoot(t1, u1, root)
       && IsRoot(t1, u1, root')
  }

  lemma FrameKept(u0: Uses, u1: Uses, root: nat, root': nat, f: nat)
    requires Replaced(u0, u1, root, root') && f in u0 && u0[f].Frame?
    ensures f in u1 && u1[f] == u0[f] && u1.Keys == u0.Keys
  {
  }

  lemma FrameMoved(t0: Tables, u0: Uses, d0: Contents, t1: Tables, u1: Uses, d1: Contents, root: nat, root': nat,
                   f: nat)
    requires FramesOk(t0, u0) && IsRoot(t0, u0, root) && Lookup(t0, root, TRAPFRAME).ppn == f
    requires Replaced(u0, u1, root, root') && OthersStay(t0, u0, d0, t1, u1, d1, root, root')
    requires !IsRoot(t0, u0, root') && IsRoot(t1, u1, root') && !IsRoot(t1, u1, root)
    requires Lookup(t1, root', TRAPFRAME) == KernelRw.(v := true, ppn := f)
             && SameMap(t1, u1, t1, u1[f := Frame(root')])
    ensures FramesOk(t1, u1[f := Frame(root')]) && Succeeds(t0, u0, t1, u1[f := Frame(root')], root, root', f)
    ensures OthersStay(t0, u0, d0, t1, u1[f := Frame(root')], d1, root, root')
  {
    hide Lookup;
    hide IsRoot;
    hide PageView;
    assert FrameAt(t0, u0, root);
    var u2 := u1[f := Frame(root')];
    forall r: nat | IsRoot(t1, u2, r)
      ensures FrameAt(t1, u2, r)
    {
      if r != root' {
        assert FrameAt(t0, u0, r);
      }
    }
    assert u2[f := Frame(root)] == u1;
  }

  /** What a process does with its memory. */
  datatype Act = Ask(request: Request) | Exec(segs: seq<Segment>, argv: seq<seq<Byte>>)

  /** A process made before the first act and changed only by its own acts. */
  ghost predicate Alone(t0: Tables, u0: Uses, d0: Contents, t1: Tables, u1: Uses, d1: Contents, root: nat, f: nat) {
    Made(t0, u0, t1, u1, root, f) && Unseen(t0, u0, d0, t1, d1)
  }

  /** A process's memory at one moment, and how many pages were free. */
  datatype Memory = Memory(tables: Tables, data: Contents, root: nat, sz: nat, free: nat)

  ghost function MemoryOf(vm: Vm, p: Proc): (m: Memory)
    requires p.pagetable.Some?
    reads vm, p
  {
    Memory(vm.tables, vm.data, p.pagetable.value, p.sz, |vm.free|)
  }

  /** What an act does to the memory of the process. */
  ghost predicate Did(act: Act, a: Answer, m: Memory, r: Memory) {
    match act
    case Ask(q) =>
      r.root == m.root && Answered(q, a, m.tables, m.data, m.free, r.tables, r.data, r.free, m.root, m.sz, r.sz)
    case Exec(segs, argv) =>
      if a.ok then Started(r.tables, r.data, r.root, r.sz, segs, argv) && Startable(segs, argv)
      else
        && r.root == m.root && r.sz == m.sz
        && (forall v: nat :: PageView(r.tables, r.data, r.root, r.sz, v) == PageView(m.tables, m.data, m.root, m.sz, v))
        && (!Startable(segs, argv) || m.free < PERSPACE + PERPAGE * (Up(ImageEnd(segs)) + USERSTACK + 1))
  }

  method Perform(vm: Vm, p: Proc, trampoline: nat, act: Act, ghost t0: Tables, ghost u0: Uses, ghost d0: Contents)
      returns (answer: Answer)
    requires p.Runs(vm) && |vm.use| < TRAPFRAME && (act.Exec? ==> |act.argv| < MAXARG) && TablesOk(t0, u0)
             && LeavesOk(t0, u0)
    requires Alone(t0, u0, d0, vm.tables, vm.use, vm.data, p.pagetable.value, p.trapframe.value)
             && EntryAt(vm.tables, p.pagetable.value, trampoline)
    modifies vm, p
    ensures p.Runs(vm) && vm.use.Keys == old(vm.use).Keys
    ensures Alone(t0, u0, d0, vm.tables, vm.use, vm.data, p.pagetable.value, p.trapframe.value)
    ensures Did(act, answer, old(MemoryOf(vm, p)), MemoryOf(vm, p)) && EntryAt(vm.tables, p.pagetable.value, trampoline)
  {
    hide Answered;
    hide EntryAt;
    hide TablesOk;
    hide FreeOk;
    hide LeavesOk;
    hide DataOk;
    hide Lookup;
    hide IsRoot;
    hide TopOk;
    hide FramesOk;
    hide Bounded;
    hide SameMap;
    hide PageView;
    hide Only;
    hide TopSame;
    hide OthersSee;
    hide OthersStay;
    hide Started;
    hide Startable;
    hide ImageEnd;
    hide Succeeds;
    hide Made;
    hide Unseen;
    ghost var t1, u1, d1, root, f := vm.tables, vm.use, vm.data, p.pagetable.value, p.trapframe.value;
    match act
    case Ask(request) =>
      p.sz, answer := Serve(vm, p.pagetable.value, p.sz, request);
      FramesOnly(t1, u1, vm.tables, vm.use, root);
      MadeMore(t0, u0, t1, u1, vm.tables, vm.use, root, f);
      SeenAsked(t0, u0, d0, t1, u1, d1, vm.tables, vm.use, vm.data, root, f);
      EntryTop(t1, vm.tables, root, trampoline);
    case Exec(segs, argv) =>
      var ok, sp := ExecProc(vm, p, trampoline, segs, argv);
      if ok {
        MadeExec(t0, u0, d0, t1, u1, d1, vm.tables, vm.use, vm.data, root, p.pagetable.value, f);
      } else {
        MadeSame(t0, u0, d0, t1, u1, d1, vm.tables, vm.data, root, f);
        UnseenOf(t1, u1, d1, vm.tables, vm.data, root, p.sz);
        EntrySame(t1, u1, vm.tables, u1, root, trampoline);
      }
      answer := Answer(ok, []);
  }

  lemma EntryTop(t0: Tables, t1: Tables, root: nat, trampoline: nat)
    requires TopSame(t0, t1, root) && EntryAt(t0, root, trampoline)
    ensures EntryAt(t1, root, trampoline)
  {
    hide Lookup;
  }

  lemma EntrySame(t0: Tables, u0: Uses, t1: Tables, u1: Uses, root: nat, trampoline: nat)
    requires SameMap(t0, u0, t1, u1) && IsRoot(t0, u0, root) && EntryAt(t0, root, trampoline)
    ensures EntryAt(t1, root, trampoline)
  {
    hide Lookup;
    hide IsRoot;
  }

  lemma FreshEntry(t: Tables, root: nat, trampoline: nat, f: nat)
    requires Fresh(t, root, trampoline, f)
    ensures EntryAt(t, root, trampoline)
  {
    hide Lookup;
  }

  lemma UnseenOf(t0: Tables, u0: Uses, d0: Contents, t1: Tables, d1: Contents, root: nat, sz: nat)
    requires Unseen(t0, u0, d0, t1, d1) && IsRoot(t0, u0, root)
    ensures forall v: nat :: PageView(t1, d1, root, sz, v) == PageView(t0, d0, root, sz, v)
  {
    hide IsRoot;
    hide PageView;
  }

  lemma SeenAsked(t0: Tables, u0: Uses, d0: Contents, t1: Tables, u1: Uses, d1: Contents, t2: Tables, u2: Uses,
                  d2: Contents, root: nat, f: nat)
    requires TablesOk(t0, u0) && LeavesOk(t0, u0) && Made(t0, u0, t1, u1, root, f) && Unseen(t0, u0, d0, t1, d1)
    requires OthersSee(t1, u1, d1, t2, d2, root) && Only(t1, u1, t2, u2, root)
    ensures Unseen(t0, u0, d0, t2, d2) && u2.Keys == u1.Keys
  {
    hide Lookup;
    hide IsRoot;
    hide TablesOk;
    hide LeavesOk;
    hide PageView;
    Retag(t0, u0, f, Frame(root));
    forall r: nat, s: nat, v: nat | IsRoot(t0, u0, r)
      ensures PageView(t2, d2, r, s, v) == PageView(t0, d0, r, s, v)
    {
      assert IsRoot(t1, u1, r) && PageView(t1, d1, r, s, v) == PageView(t0, d0, r, s, v);
    }
  }

  lemma MadeSame(t0: Tables, u0: Uses, d0: Contents, t1: Tables, u1: Uses, d1: Contents, t2: Tables, d2: Contents,
                 root: nat, f: nat)
    requires TablesOk(t0, u0) && LeavesOk(t0, u0) && Made(t0, u0, t1, u1, root, f) && Unseen(t0, u0, d0, t1, d1)
    requires SameMap(t1, u1, t2, u1) && Unseen(t1, u1, d1, t2, d2)
    ensures Made(t0, u0, t2, u1, root, f) && Unseen(t0, u0, d0, t2, d2)
  {
    hide Lookup;
    hide IsRoot;
    hide TablesOk;
    hide LeavesOk;
    hide PageView;
    Retag(t0, u0, f, Frame(root));
    forall r: nat, s: nat, v: nat | IsRoot(t0, u0, r)
      ensures PageView(t2, d2, r, s, v) == PageView(t0, d0, r, s, v)
    {
      assert IsRoot(t1, u1, r) && PageView(t1, d1, r, s, v) == PageView(t0, d0, r, s, v);
    }
  }

  lemma MadeExec(t0: Tables, u0: Uses, d0: Contents, t1: Tables, u1: Uses, d1: Contents, t2: Tables, u2: Uses,
                 d2: Contents, root: nat, root': nat, f: nat)
    requires TablesOk(t0, u0) && LeavesOk(t0, u0) && Made(t0, u0, t1, u1, root, f) && Unseen(t0, u0, d0, t1, d1)
    requires Succeeds(t1, u1, t2, u2, root, root', f) && OthersStay(t1, u1, d1, t2, u2, d2, root, root')
             && IsRoot(t1, u1, root)
    ensures Made(t0, u0, t2, u2, root', f) && Unseen(t0, u0, d0, t2, d2)
  {
    hide Lookup;
    hide IsRoot;
    hide TablesOk;
    hide LeavesOk;
    hide PageView;
    Retag(t0, u0, f, Frame(root));
    Retag(t0, u0, f, Frame(root'));
    NoneOurs(t0, u0, root);
    WithinExec(u0, u1, u2, root, root', f);
    forall r: nat, s: nat, v: nat | IsRoot(t0, u0, r)
      ensures PageView(t2, d2, r, s, v) == PageView(t0, d0, r, s, v)
    {
      assert IsRoot(t1, u1, r) && PageView(t1, d1, r, s, v) == PageView(t0, d0, r, s, v);
    }
  }

  lemma WithinExec(u0: Uses, u1: Uses, u2: Uses, root: nat, root': nat, f: nat)
    requires f in u0 && Within(u0[f := Frame(root)], u1, root) && (forall p :: p in u0 ==> !Ours(u0[p], root))
    requires f in u2 && u2[f] == Frame(root') && Replaced(u1, u2[f := Frame(root)], root, root')
    ensures Within(u0[f := Frame(root')], u2, root')
  {
    forall p | p in u0 && p != f
      ensures p in u2 && (u2[p] != u0[p] ==> u0[p].Free? && (u2[p].Free? || Ours(u2[p], root')))
    {
      assert u2[f := Frame(root)][p] == u2[p];
    }
    assert u2.Keys == u2[f := Frame(root)].Keys;
  }

  /** A process is made, acts in any way it can, and is freed: every act has the effect and the
      answer that it should have, every page is used as before, and no other address space or
      its contents have changed. */
  method Lifetime(vm: Vm, p: Proc, trampoline: nat, acts: seq<Act>)
      returns (ok: bool, answers: seq<Answer>, ghost trace: seq<Memory>)
    requires System(vm) && p.Unused() && |vm.use| < TRAPFRAME
    requires forall k :: 0 <= k < |acts| && acts[k].Exec? ==> |acts[k].argv| < MAXARG
    modifies vm, p
    ensures System(vm) && p.Unused()
    ensures vm.use == old(vm.use) && SameMap(old(vm.tables), old(vm.use), vm.tables, vm.use)
    ensures Unseen(old(vm.tables), old(vm.use), old(vm.data), vm.tables, vm.data)
    ensures !ok ==> |old(vm.free)| < 1 + PERSPACE
    ensures ok ==>
              && |answers| == |acts| && |trace| == |acts| + 1 && trace[0].sz == 0
              && (forall k :: 0 <= k < |acts| ==> Did(acts[k], answers[k], trace[k], trace[k + 1]))
              && forall k :: 0 <= k < |trace| ==> EntryAt(trace[k].tables, trace[k].root, trampoline)
  {
    hide Did;
    hide EntryAt;
    hide TablesOk;
    hide FreeOk;
    hide LeavesOk;
    hide DataOk;
    hide Lookup;
    hide IsRoot;
    hide TopOk;
    hide FramesOk;
    hide Bounded;
    hide SameMap;
    hide PageView;
    hide Only;
    hide Made;
    hide Unseen;
    hide Returned;
    hide Fresh;
    hide OthersMap;
    ghost var t0, u0, d0 := vm.tables, vm.use, vm.data;
    answers, trace := [], [];
    ok := Allocproc(vm, p, trampoline);
    if !ok {
      UnseenSame(t0, u0, vm.tables, vm.use, d0);
      return;
    }
    trace := [MemoryOf(vm, p)];
    FreshEntry(vm.tables, p.pagetable.value, trampoline, p.trapframe.value);
    StartsAlone(t0, u0, d0, vm.tables, vm.use, p.pagetable.value, p.trapframe.value);
    var i := 0;
    while i < |acts|
      invariant 0 <= i <= |acts|
      invariant p.Runs(vm) && vm.use.Keys == u0.Keys
      invariant Alone(t0, u0, d0, vm.tables, vm.use, vm.data, p.pagetable.value, p.trapframe.value)
      invariant |answers| == i && |trace| == i + 1 && trace[0].sz == 0 && trace[i] == MemoryOf(vm, p)
      invariant forall k :: 0 <= k < i ==> Did(acts[k], answers[k], trace[k], trace[k + 1])
      invariant forall k :: 0 <= k <= i ==> EntryAt(trace[k].tables, trace[k].root, trampoline)
    {
      var answer := Perform(vm, p, trampoline, acts[i], t0, u0, d0);
      answers := answers + [answer];
      trace := trace + [MemoryOf(vm, p)];
      i := i + 1;
    }
    ghost var t1, u1, root, f := vm.tables, vm.use, p.pagetable.value, p.trapframe.value;
    Freeproc(vm, p);
    MadeFreed(t0, u0, t1, u1, vm.tables, vm.use, root, f);
    UnseenFreed(t0, u0, d0, t1, u1, vm.tables, vm.use, vm.data, root, f);
  }

  lemma UnseenSame(t0: Tables, u0: Uses, t1: Tables, u1: Uses, d: Contents)
    requires SameMap(t0, u0, t1, u1)
    ensures Unseen(t0, u0, d, t1, d)
  {
    hide Lookup;
    hide IsRoot;
  }

  lemma StartsAlone(t0: Tables, u0: Uses, d: Contents, t1: Tables, u1: Uses, root: nat, f: nat)
    requires TablesOk(t0, u0) && LeavesOk(t0, u0) && Made(t0, u0, t1, u1, root, f)
    ensures Alone(t0, u0, d, t1, u1, d, root, f) && u1.Keys == u0.Keys
  {
    hide Lookup;
    hide IsRoot;
    hide TablesOk;
    hide LeavesOk;
    Retag(t0, u0, f, Frame(root));
    forall r: nat, s: nat, v: nat | IsRoot(t0, u0, r)
      ensures PageView(t1, d, r, s, v) == PageView(t0, d, r, s, v)
    {
      assert IsRoot(t0, u0[f := Frame(root)], r);
    }
  }

  lemma UnseenFreed(t0: Tables, u0: Uses, d0: Contents, t1: Tables, u1: Uses, t2: Tables, u2: Uses, d: Contents,
                    root: nat, f: nat)
    requires TablesOk(t0, u0) && LeavesOk(t0, u0) && Made(t0, u0, t1, u1, root, f) && Unseen(t0, u0, d0, t1, d)
    requires OthersMap(t1, u1, t2, u2, root)
    ensures Unseen(t0, u0, d0, t2, d)
  {
    hide Lookup;
    hide IsRoot;
    hide TablesOk;
    hide LeavesOk;
    Retag(t0, u0, f, Frame(root));
    forall r: nat, s: nat, v: nat | IsRoot(t0, u0, r)
      ensures PageView(t2, d, r, s, v) == PageView(t0, d0, r, s, v)
    {
      assert IsRoot(t1, u1, r) && PageView(t2, d, r, s, v) == PageView(t1, d, r, s, v);
    }
  }

  /** The first process of a machine that has just started. */
  method FirstProcess() returns (vm: Vm, p: Proc)
    ensures fresh(vm) && fresh(p) && p.Runs(vm) && p.sz == 0 && |vm.use| < TRAPFRAME && |vm.free| > 30000
  {
    hide Made;
    hide Fresh;
    hide SameMap;
    vm := new Vm(0x80100, 0x88000);
    p := new Proc();
    Nothing(vm);
    assert System(vm);
    ghost var t0, u0 := vm.tables, vm.use;
    var ok := Allocproc(vm, p, 0x80005);
    MadeKeys(t0, u0, vm.tables, vm.use, p.pagetable.value, p.trapframe.value);
  }

  lemma MadeKeys(t0: Tables, u0: Uses, t1: Tables, u1: Uses, root: nat, f: nat)
    requires Made(t0, u0, t1, u1, root, f)
    ensures u1.Keys == u0.Keys && |u1| == |u0|
  {
    hide IsRoot;
    hide OthersMap;
    assert u1.Keys == u0.Keys;
  }

  lemma Nothing(vm: Vm)
    requires vm.Valid() && vm.tables == map[] && forall p :: p in vm.use ==> vm.use[p].Free?
    ensures System(vm)
  {
  }

  /** A program whose first header is empty and at address 0: every header is well
      formed, and the second one is the program. */
  function EmptyThenText(): (segs: seq<Segment>)
    ensures |segs| == 2 && WellFormed(segs[0]) && WellFormed(segs[1])
  {
    [Segment(0, 0, 0, false, false, []), Segment(0, PGSIZE, 4, true, false, [1, 2, 3, 4])]
  }

  /** It does not start, though it takes one page and there are thousands. */
  method EmptyFirst() returns (ok: bool)
    ensures !ok
  {
    hide Started;
    hide SameMap;
    hide Unseen;
    hide Succeeds;
    hide OthersStay;
    hide System;
    hide Proc.Runs;
    var vm, p := FirstProcess();
    var sp;
    ok, sp := ExecProc(vm, p, 0x80005, EmptyThenText(), []);
  }

  /** A program of one page. */
  function Text(): (segs: seq<Segment>) {
    [Segment(0, PGSIZE, 4, true, false, [1, 2, 3, 4])]
  }

  lemma TextStarts()
    ensures Startable(Text(), []) && ImageEnd(Text()) == PGSIZE && Up(PGSIZE) == 1
  {
    assert Text()[..0] == [];
  }

  /** The program takes the place of the first process's empty image; it then asks to
      shrink by a byte more than its three pages. That succeeds and changes nothing. */
  method ShrinkBelowZero() returns (ok: bool, before: nat, after: nat)
    ensures ok && before == after == 3 * PGSIZE
  {
    hide Lookup;
    hide IsRoot;
    hide Only;
    hide TopSame;
    hide OthersSee;
    hide OthersStay;
    hide Resized;
    hide Shows;
    hide Hidden;
    hide ArgvAt;
    hide Startable;
    hide ImageEnd;
    hide SameMap;
    hide Unseen;
    hide Succeeds;
    hide Text;
    var vm, p := FirstProcess();
    TextStarts();
    var sp;
    ok, sp := ExecProc(vm, p, 0x80005, Text(), []);
    before := p.sz;
    ok, after := Growproc(vm, p.pagetable.value, p.sz, -3 * PGSIZE - 1);
  }
}
