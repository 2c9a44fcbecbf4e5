/** The argument vector that kexec (kernel/exec.c) builds on a new stack: where
    each string and the array of pointers go, and what a program that follows the
    pointers finds. */
module Argv {
  import opened Base
  import opened PageTable
  import opened Vm
  import opened UserMemory

  const MAXARG: nat := 32
  const PTRSIZE: nat := 8

  /** Room for n bytes below sp, aligned to 16. */
  function Lowered(sp: int, n: nat): (r: int)
    ensures r % 16 == 0 && sp - n - 16 < r <= sp - n
  {
    sp - n - (sp - n) % 16
  }

  /** The stack pointer once the first k strings lie below top, each with its
      terminating zero. */
  function ArgSp(top: nat, argv: seq<seq<Byte>>, k: nat): (r: int)
    requires k <= |argv|
    ensures r <= top
  {
    if k == 0 then top else Lowered(ArgSp(top, argv, k - 1), |argv[k - 1]| + 1)
  }

  /** The stack pointer a program starts with: the array of pointers lies there. */
  function ArgvSp(top: nat, argv: seq<seq<Byte>>): (r: int)
    ensures r <= top
  {
    Lowered(ArgSp(top, argv, |argv|), PTRSIZE * (|argv| + 1))
  }

  lemma {:induction false} ArgSpFalls(top: nat, argv: seq<seq<Byte>>, j: nat, k: nat)
    requires j <= k <= |argv|
    ensures ArgSp(top, argv, k) <= ArgSp(top, argv, j)
    decreases k - j
  {
    if j < k {
      ArgSpFalls(top, argv, j, k - 1);
    }
  }

  function Pow256(n: nat): (r: nat)
    ensures r > 0
  {
    if n == 0 then 1 else 256 * Pow256(n - 1)
  }

  /** x in n bytes, the lowest first. */
  function Le(x: nat, n: nat): (s: seq<Byte>)
    ensures |s| == n
  {
    if n == 0 then [] else [x % 256] + Le(x / 256, n - 1)
  }

  function Value(s: seq<Byte>): (x: nat) {
    if s == [] then 0 else s[0] + 256 * Value(s[1..])
  }

  lemma {:induction false} ValueOfLe(x: nat, n: nat)
    requires x < Pow256(n)
    ensures Value(Le(x, n)) == x
  {
    if n > 0 {
      ValueOfLe(x / 256, n - 1);
      assert Le(x, n)[1..] == Le(x / 256, n - 1);
    }
  }

  function Pointers(ps: seq<nat>): (s: seq<Byte>)
    ensures |s| == PTRSIZE * |ps|
  {
    if ps == [] then [] else Pointers(ps[..|ps| - 1]) + Le(ps[|ps| - 1], PTRSIZE)
  }

  lemma {:induction false} PointerAt(ps: seq<nat>, k: nat)
    requires k < |ps|
    ensures Pointers(ps)[PTRSIZE * k..PTRSIZE * k + PTRSIZE] == Le(ps[k], PTRSIZE)
  {
    var n := |ps| - 1;
    var front := Pointers(ps[..n]);
    if k < n {
      PointerAt(ps[..n], k);
      assert Pointers(ps)[PTRSIZE * k..PTRSIZE * k + PTRSIZE] == front[PTRSIZE * k..PTRSIZE * k + PTRSIZE];
    } else {
      assert Pointers(ps)[PTRSIZE * k..PTRSIZE * k + PTRSIZE] == Le(ps[n], PTRSIZE);
    }
  }

  /** String j is where ArgSp puts it. */
  ghost predicate StringAt(t: Tables, d: Contents, root: nat, sz: nat, argv: seq<seq<Byte>>, j: nat)
    requires j < |argv|
  {
    ArgSp(sz, argv, j + 1) >= 0 && Seen(t, d, root, sz, ArgSp(sz, argv, j + 1), argv[j] + [0])
  }

  /** Pointer j of the array at sp leads to string j. */
  ghost predicate PointerTo(t: Tables, d: Contents, root: nat, sz: nat, sp: nat, argv: seq<seq<Byte>>, j: nat)
    requires j < |argv|
  {
    ArgSp(sz, argv, j + 1) >= 0 && Seen(t, d, root, sz, sp + PTRSIZE * j, Le(ArgSp(sz, argv, j + 1), PTRSIZE))
  }

  /** An argument vector at the top of a space of size sz: the array of pointers
      at the stack pointer, ended by a null pointer, and each string, ended by a
      zero byte, where its pointer says. */
  ghost predicate ArgvAt(t: Tables, d: Contents, root: nat, sz: nat, argv: seq<seq<Byte>>) {
    var sp := ArgvSp(sz, argv);
    && sp >= 0
    && (forall j: nat :: j < |argv| ==> StringAt(t, d, root, sz, argv, j) && PointerTo(t, d, root, sz, sp, argv, j))
    && Seen(t, d, root, sz, sp + PTRSIZE * |argv|, Le(0, PTRSIZE))
  }

  /** A program that reads pointer k of the array, and then as many bytes as
      string k has, has string k; pointer argc is null. */
  lemma ArgvReads(t: Tables, d: Contents, root: nat, sz: nat, argv: seq<seq<Byte>>, k: nat, p: seq<Byte>, s: seq<Byte>)
    requires ArgvAt(t, d, root, sz, argv) && sz < Pow256(PTRSIZE) && k <= |argv| && |p| == PTRSIZE
    requires Seen(t, d, root, sz, ArgvSp(sz, argv) + PTRSIZE * k, p)
    requires k < |argv| ==> |s| == |argv[k]| + 1 && Seen(t, d, root, sz, Value(p), s)
    ensures if k < |argv| then s == argv[k] + [0] else Value(p) == 0
  {
    hide View;
    assert k < |argv| ==> StringAt(t, d, root, sz, argv, k);
    var x: nat := if k < |argv| then ArgSp(sz, argv, k + 1) else 0;
    SeenSame(t, d, root, sz, ArgvSp(sz, argv) + PTRSIZE * k, p, Le(x, PTRSIZE));
    ValueOfLe(x, PTRSIZE);
    if k < |argv| {
      SeenSame(t, d, root, sz, x, s, argv[k] + [0]);
    }
  }

  lemma SeenSame(t: Tables, d: Contents, root: nat, sz: nat, a: nat, s: seq<Byte>, r: seq<Byte>)
    requires Seen(t, d, root, sz, a, s) && Seen(t, d, root, sz, a, r) && |s| == |r|
    ensures s == r
  {
    hide View;
    forall i | 0 <= i < |s|
      ensures s[i] == r[i]
    {
      assert View(t, d, root, sz, a + i) == Some(s[i]);
    }
  }

  /** Bytes written are there to see. */
  lemma WrittenSeen(t0: Tables, d0: Contents, t1: Tables, d1: Contents, root: nat, sz: nat, dst: nat, src: seq<Byte>)
    requires Written(t0, d0, t1, d1, root, sz, dst, src, |src|)
    ensures Seen(t1, d1, root, sz, dst, src)
  {
    hide View;
  }

  /** Writing below a string leaves it. */
  lemma SeenAbove(t0: Tables, d0: Contents, t1: Tables, d1: Contents, root: nat, sz: nat, dst: nat, src: seq<Byte>,
                  a: nat, s: seq<Byte>)
    requires Written(t0, d0, t1, d1, root, sz, dst, src, |src|) && dst + |src| <= a && Seen(t0, d0, root, sz, a, s)
    ensures Seen(t1, d1, root, sz, a, s)
  {
    hide View;
  }

  lemma StringsAbove(t0: Tables, d0: Contents, t1: Tables, d1: Contents, root: nat, sz: nat, dst: nat, src: seq<Byte>,
                     argv: seq<seq<Byte>>, k: nat, j: nat)
    requires j < k <= |argv| && StringAt(t0, d0, root, sz, argv, j)
    requires Written(t0, d0, t1, d1, root, sz, dst, src, |src|) && dst + |src| <= ArgSp(sz, argv, k)
    ensures StringAt(t1, d1, root, sz, argv, j)
  {
    hide Seen;
    hide Written;
    ArgSpFalls(sz, argv, j + 1, k);
    SeenAbove(t0, d0, t1, d1, root, sz, dst, src, ArgSp(sz, argv, j + 1), argv[j] + [0]);
  }

  /** One more string. */
  lemma StringsMore(t0: Tables, d0: Contents, t1: Tables, d1: Contents, root: nat, sz: nat, argv: seq<seq<Byte>>,
                    k: nat)
    requires k < |argv| && ArgSp(sz, argv, k + 1) >= 0
    requires forall j: nat :: j < k ==> StringAt(t0, d0, root, sz, argv, j)
    requires Written(t0, d0, t1, d1, root, sz, ArgSp(sz, argv, k + 1), argv[k] + [0], |argv[k] + [0]|)
    ensures forall j: nat :: j <= k ==> StringAt(t1, d1, root, sz, argv, j)
  {
    hide Seen;
    hide Written;
    WrittenSeen(t0, d0, t1, d1, root, sz, ArgSp(sz, argv, k + 1), argv[k] + [0]);
    forall j: nat | j < k
      ensures StringAt(t1, d1, root, sz, argv, j)
    {
      StringsAbove(t0, d0, t1, d1, root, sz, ArgSp(sz, argv, k + 1), argv[k] + [0], argv, k, j);
    }
  }

  lemma SeenPart(t: Tables, d: Contents, root: nat, sz: nat, a: nat, s: seq<Byte>, o: nat, w: seq<Byte>)
    requires Seen(t, d, root, sz, a, s) && o + |w| <= |s| && s[o..o + |w|] == w
    ensures Seen(t, d, root, sz, a + o, w)
  {
    hide View;
    forall i | 0 <= i < |w|
      ensures View(t, d, root, sz, a + o + i) == Some(w[i])
    {
      assert w[i] == s[o + i];
      assert View(t, d, root, sz, a + (o + i)) == Some(s[o + i]);
    }
  }

  lemma PointerSeen(t: Tables, d: Contents, root: nat, sz: nat, sp: nat, ps: seq<nat>, k: nat)
    requires Seen(t, d, root, sz, sp, Pointers(ps)) && k < |ps|
    ensures Seen(t, d, root, sz, sp + PTRSIZE * k, Le(ps[k], PTRSIZE))
  {
    hide Seen;
    hide Pointers;
    hide Le;
    PointerAt(ps, k);
    SeenPart(t, d, root, sz, sp, Pointers(ps), PTRSIZE * k, Le(ps[k], PTRSIZE));
  }

  /** The array of pointers completes the vector. */
  lemma PointersMore(t0: Tables, d0: Contents, t1: Tables, d1: Contents, root: nat, sz: nat, argv: seq<seq<Byte>>,
                     ustack: seq<nat>)
    requires forall j: nat :: j < |argv| ==> StringAt(t0, d0, root, sz, argv, j)
    requires ArgvSp(sz, argv) >= 0 && |ustack| == |argv| && forall j: nat :: j < |argv| ==>
               ustack[j] == ArgSp(sz, argv, j + 1)
    requires Written(t0, d0, t1, d1, root, sz, ArgvSp(sz, argv), Pointers(ustack + [0]), |Pointers(ustack + [0])|)
    ensures ArgvAt(t1, d1, root, sz, argv)
  {
    hide Seen;
    hide Written;
    hide Pointers;
    hide Le;
    var sp := ArgvSp(sz, argv);
    var ps := ustack + [0];
    assert |Pointers(ps)| == PTRSIZE * (|argv| + 1);
    WrittenSeen(t0, d0, t1, d1, root, sz, sp, Pointers(ps));
    PointerSeen(t1, d1, root, sz, sp, ps, |argv|);
    forall j: nat | j < |argv|
      ensures StringAt(t1, d1, root, sz, argv, j) && PointerTo(t1, d1, root, sz, sp, argv, j)
    {
      StringsAbove(t0, d0, t1, d1, root, sz, sp, Pointers(ps), argv, |argv|, j);
      PointerSeen(t1, d1, root, sz, sp, ps, j);
    }
  }

  lemma SameSight(t0: Tables, d0: Contents, t1: Tables, d1: Contents, root: nat, sz: nat, a: nat, s: seq<Byte>)
    requires Seen(t0, d0, root, sz, a, s) && forall b: nat :: View(t1, d1, root, sz, b) == View(t0, d0, root, sz, b)
    ensures Seen(t1, d1, root, sz, a, s)
  {
    hide View;
  }

  /** A view that does not change shows the same vector. */
  lemma SameArgv(t0: Tables, d0: Contents, t1: Tables, d1: Contents, root: nat, sz: nat, argv: seq<seq<Byte>>)
    requires ArgvAt(t0, d0, root, sz, argv)
    requires forall a: nat :: View(t1, d1, root, sz, a) == View(t0, d0, root, sz, a)
    ensures ArgvAt(t1, d1, root, sz, argv)
  {
    hide View;
    hide Seen;
    hide Le;
    var sp := ArgvSp(sz, argv);
    SameSight(t0, d0, t1, d1, root, sz, sp + PTRSIZE * |argv|, Le(0, PTRSIZE));
    forall j: nat | j < |argv|
      ensures StringAt(t1, d1, root, sz, argv, j) && PointerTo(t1, d1, root, sz, sp, argv, j)
    {
      assert StringAt(t0, d0, root, sz, argv, j);
      SameSight(t0, d0, t1, d1, root, sz, ArgSp(sz, argv, j + 1), argv[j] + [0]);
      SameSight(t0, d0, t1, d1, root, sz, sp + PTRSIZE * j, Le(ArgSp(sz, argv, j + 1), PTRSIZE));
    }
  }
}
