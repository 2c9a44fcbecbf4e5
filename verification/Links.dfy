/** Link counts (create, sys_link and sys_unlink in kernel/sysfile.c, ialloc and
    the freeing half of iput in kernel/fs.c), one call at a time: nlink is the
    number of entries that name an inode, other than ".", in directories that
    are still linked. */
module Links {
  import opened Base
  import opened Directory

  datatype Kind = File | Dir | Device

  datatype Inode = Inode(kind: Kind, nlink: int, es: seq<Dirent>)

  /** The inodes in use. */
  type Tree = map<nat, Inode>

  /** A directory entry, by inode number and slot. */
  type Ref = (nat, nat)

  const ROOT: nat := 1
  const DOT: CString := [46]
  const DOTDOT: CString := [46, 46]
  /** nlink is a 16-bit signed number. */
  const MAXLINK := 32767

  function Short(x: int): (r: int)
    ensures -MAXLINK - 1 <= x <= MAXLINK ==> r == x
  {
    (x + MAXLINK + 1) % (2 * MAXLINK + 2) - MAXLINK - 1
  }

  lemma ShortBack(n: nat)
    requires n <= MAXLINK
    ensures Short(Short(n + 1) - 1) == n
  {
  }

  predicate Live(t: Tree, d: nat) {
    d in t && t[d].kind.Dir? && t[d].nlink > 0
  }

  /** Slot k of a linked directory d names inode i, and not as ".". */
  predicate Refers(t: Tree, d: nat, k: nat, i: nat) {
    Live(t, d) && k < |t[d].es| && i != 0 && t[d].es[k].inum == i && Name(t[d].es[k]) != DOT
  }

  ghost function Refs(t: Tree, i: nat): (r: set<Ref>) {
    set d, k: nat | d in t && k < |t[d].es| && Refers(t, d, k, i) :: (d, k)
  }

  /** A linked directory starts with "." and "..", and no name occurs twice. */
  ghost predicate ShapeOk(t: Tree, d: nat)
    requires d in t
  {
    var es := t[d].es;
    && d != 0 && |es| >= 2 && es[0].inum == d && Name(es[0]) == DOT && es[1].inum != 0 && Name(es[1]) == DOTDOT
       && NoDup(es)
  }

  /** The inode that ".." names. */
  function Up(t: Tree, c: nat): (d: nat)
    requires c in t
  {
    if |t[c].es| >= 2 then t[c].es[1].inum else 0
  }

  /** Where each directory is named: `place` gives parent and slot. */
  type Places = map<nat, Ref>

  /** Entries name inodes that exist; a directory is named, other than by "." and
      "..", in its place only, which is in its parent. */
  ghost predicate NamedOk(t: Tree, place: Places, d: nat, k: nat, c: nat) {
    Refers(t, d, k, c) ==>
      && c in t
      && (k >= 2 && t[c].kind.Dir? ==> c != ROOT && c in place && place[c] == (d, k) && Up(t, c) == d)
  }

  /** A linked directory is well formed, and named by its parent. */
  ghost predicate DirOk(t: Tree, place: Places, c: nat) {
    Live(t, c) ==>
      && ShapeOk(t, c)
      && if c == ROOT then Up(t, c) == ROOT
         else c in place && place[c].0 == Up(t, c) && place[c].1 >= 2 && Refers(t, place[c].0, place[c].1, c)
  }

  ghost predicate Counted(t: Tree, i: nat) {
    i in t ==> t[i].nlink == |Refs(t, i)|
  }

  ghost predicate Ok(t: Tree, place: Places) {
    && Live(t, ROOT) && 0 !in t
    && (forall d: nat, k: nat, c: nat :: NamedOk(t, place, d, k, c))
    && (forall c: nat :: DirOk(t, place, c))
    && (forall i: nat :: Counted(t, i))
  }

  /** One entry more, one entry less, or none of either. */
  lemma RefsAdd(t: Tree, t': Tree, i: nat, d: nat, k: nat)
    requires Refers(t', d, k, i) && !Refers(t, d, k, i)
    requires forall a: nat, b: nat :: Refers(t', a, b, i) <==> Refers(t, a, b, i) || (a == d && b == k)
    ensures |Refs(t', i)| == |Refs(t, i)| + 1
  {
    assert Refs(t', i) == Refs(t, i) + {(d, k)};
  }

  lemma RefsSame(t: Tree, t': Tree, i: nat)
    requires forall a: nat, b: nat :: Refers(t', a, b, i) <==> Refers(t, a, b, i)
    ensures |Refs(t', i)| == |Refs(t, i)|
  {
    assert Refs(t', i) == Refs(t, i);
  }

  lemma RefsDrop(t: Tree, t': Tree, i: nat, d: nat, k: nat)
    requires Refers(t, d, k, i) && !Refers(t', d, k, i)
    requires forall a: nat, b: nat :: Refers(t', a, b, i) <==> Refers(t, a, b, i) && !(a == d && b == k)
    ensures |Refs(t', i)| == |Refs(t, i)| - 1
  {
    assert Refs(t, i) == Refs(t', i) + {(d, k)};
  }

  /** A link to a file, in a slot that was empty. */
  ghost function Linked(t: Tree, ip: nat, dp: nat, k: nat, e: Dirent): (r: Tree)
    requires ip in t && dp in t && k <= |t[dp].es|
  {
    t[ip := t[ip].(nlink := t[ip].nlink + 1)][dp := t[dp].(es := Put(t[dp].es, k, e))]
  }

  ghost predicate CanPut(t: Tree, dp: nat, k: nat, e: Dirent) {
    && Live(t, dp) && k <= |t[dp].es| && (k < |t[dp].es| ==> t[dp].es[k].inum == 0) && e.inum != 0
    && forall j: nat :: !Says(t[dp].es, j, Name(e))
  }

  lemma PutShape(es: seq<Dirent>, k: nat, e: Dirent)
    requires NoDup(es) && |es| >= 2 && es[0].inum != 0 && es[1].inum != 0 && k <= |es| && (k < |es| ==> es[k].inum == 0)
    requires forall j: nat :: !Says(es, j, Name(e))
    ensures var es' := Put(es, k, e);
            k >= 2 && |es'| >= 2 && es'[0] == es[0] && es'[1] == es[1] && NoDup(es') && Name(e) != Name(es[0])
  {
    var es' := Put(es, k, e);
    assert !Says(es, 0, Name(e));
    forall i, j | 0 <= i < j < |es'| && es'[i].inum != 0 && es'[j].inum != 0
      ensures Name(es'[i]) != Name(es'[j])
    {
      assert i != k ==> !Says(es, i, Name(e));
      assert j != k ==> !Says(es, j, Name(e));
    }
  }

  ghost predicate CanLink(t: Tree, ip: nat, dp: nat, k: nat, e: Dirent) {
    CanPut(t, dp, k, e) && ShapeOk(t, dp) && e.inum == ip && ip in t && !t[ip].kind.Dir?
  }

  lemma LinkedRefers(t: Tree, ip: nat, dp: nat, k: nat, e: Dirent, a: nat, b: nat, i: nat)
    requires CanLink(t, ip, dp, k, e)
    ensures Refers(Linked(t, ip, dp, k, e), a, b, i) <==> Refers(t, a, b, i) || (a == dp && b == k && i == ip)
    ensures Live(Linked(t, ip, dp, k, e), a) <==> Live(t, a)
  {
    PutShape(t[dp].es, k, e);
  }

  lemma LinkedNamed(t: Tree, place: Places, ip: nat, dp: nat, k: nat, e: Dirent, a: nat, b: nat, c: nat)
    requires CanLink(t, ip, dp, k, e) && NamedOk(t, place, a, b, c)
    ensures NamedOk(Linked(t, ip, dp, k, e), place, a, b, c)
  {
    LinkedRefers(t, ip, dp, k, e, a, b, c);
    PutShape(t[dp].es, k, e);
    hide Refers;
  }

  lemma LinkedDir(t: Tree, place: Places, ip: nat, dp: nat, k: nat, e: Dirent, c: nat)
    requires CanLink(t, ip, dp, k, e) && DirOk(t, place, c)
    ensures DirOk(Linked(t, ip, dp, k, e), place, c)
  {
    LinkedRefers(t, ip, dp, k, e, c, 0, 0);
    if c in place {
      LinkedRefers(t, ip, dp, k, e, place[c].0, place[c].1, c);
    }
    PutShape(t[dp].es, k, e);
    hide Refers;
  }

  lemma LinkedCounted(t: Tree, ip: nat, dp: nat, k: nat, e: Dirent, i: nat)
    requires CanLink(t, ip, dp, k, e) && Counted(t, i)
    ensures Counted(Linked(t, ip, dp, k, e), i)
  {
    var t' := Linked(t, ip, dp, k, e);
    forall a: nat, b: nat
      ensures Refers(t', a, b, i) <==> Refers(t, a, b, i) || (a == dp && b == k && i == ip)
    {
      LinkedRefers(t, ip, dp, k, e, a, b, i);
    }
    assert !Refers(t, dp, k, ip);
    hide Refers;
    if i == ip {
      RefsAdd(t, t', i, dp, k);
    } else {
      RefsSame(t, t', i);
    }
  }

  lemma LinkedOk(t: Tree, place: Places, ip: nat, dp: nat, k: nat, e: Dirent)
    requires Ok(t, place) && CanPut(t, dp, k, e) && e.inum == ip && ip in t && !t[ip].kind.Dir?
    ensures Ok(Linked(t, ip, dp, k, e), place)
  {
    hide Refers;
    hide NamedOk;
    hide Counted;
    hide NoDup;
    assert DirOk(t, place, dp);
    var t' := Linked(t, ip, dp, k, e);
    LinkedRefers(t, ip, dp, k, e, ROOT, 0, 0);
    hide DirOk;
    hide CanPut;
    forall a: nat, b: nat, c: nat
      ensures NamedOk(t', place, a, b, c)
    {
      assert NamedOk(t, place, a, b, c);
      LinkedNamed(t, place, ip, dp, k, e, a, b, c);
    }
    forall c: nat
      ensures DirOk(t', place, c) && Counted(t', c)
    {
      assert DirOk(t, place, c) && Counted(t, c);
      LinkedDir(t, place, ip, dp, k, e, c);
      LinkedCounted(t, ip, dp, k, e, c);
    }
  }

  /** An inode that no directory names yet. */
  ghost function Added(t: Tree, i: nat, kind: Kind, es: seq<Dirent>): (r: Tree) {
    t[i := Inode(kind, 0, es)]
  }

  lemma AddedRefers(t: Tree, i: nat, kind: Kind, es: seq<Dirent>, a: nat, b: nat, c: nat)
    requires i !in t
    ensures Refers(Added(t, i, kind, es), a, b, c) <==> Refers(t, a, b, c)
  {
  }

  lemma AddedOk(t: Tree, place: Places, i: nat, kind: Kind, es: seq<Dirent>)
    requires Ok(t, place) && i !in t && i != 0
    ensures Ok(Added(t, i, kind, es), place)
  {
    var t' := Added(t, i, kind, es);
    forall a: nat, b: nat, c: nat
      ensures Refers(t', a, b, c) <==> Refers(t, a, b, c)
      ensures NamedOk(t', place, a, b, c)
    {
      AddedRefers(t, i, kind, es, a, b, c);
      assert NamedOk(t, place, a, b, c);
    }
    forall c: nat
      ensures DirOk(t', place, c)
    {
      assert DirOk(t, place, c);
    }
    hide DirOk;
    forall c: nat
      ensures Counted(t', c)
    {
      assert Counted(t, c);
      RefsSame(t, t', c);
      if c == i {
        Unnamed(t, place, i);
      }
    }
  }

  /** An inode that is not in use is named nowhere. */
  lemma Unnamed(t: Tree, place: Places, i: nat)
    requires Ok(t, place) && i !in t
    ensures Refs(t, i) == {}
  {
    forall a: nat, b: nat
      ensures !Refers(t, a, b, i)
    {
      assert NamedOk(t, place, a, b, i);
    }
  }

  /** A new directory i gets its name in dp, and dp a link for i's "..". */
  ghost function Adopted(t: Tree, i: nat, dp: nat, k: nat, e: Dirent): (r: Tree)
    requires i in t && dp in t && k <= |t[dp].es|
  {
    t[i := t[i].(nlink := 1)][dp := t[dp].(nlink := t[dp].nlink + 1, es := Put(t[dp].es, k, e))]
  }

  function Dots(i: nat, dp: nat): (es: seq<Dirent>) {
    [Dirent(i, Pack(DOT)), Dirent(dp, Pack(DOTDOT))]
  }

  lemma DotNames()
    ensures Unpack(Pack(DOT)) == DOT && Unpack(Pack(DOTDOT)) == DOTDOT && DOT != DOTDOT
  {
    UnpackPack(DOT);
    UnpackPack(DOTDOT);
  }

  ghost predicate CanAdopt(t: Tree, i: nat, dp: nat, k: nat, e: Dirent) {
    && CanPut(t, dp, k, e) && ShapeOk(t, dp) && e.inum == i && i in t && i != 0 && i != dp && i != ROOT
    && t[i] == Inode(Dir, 0, Dots(i, dp))
  }

  lemma AdoptedRefers(t: Tree, i: nat, dp: nat, k: nat, e: Dirent, a: nat, b: nat, c: nat)
    requires CanAdopt(t, i, dp, k, e)
    ensures Refers(Adopted(t, i, dp, k, e), a, b, c) <==>
            Refers(t, a, b, c) || (a == dp && b == k && c == i) || (a == i && b == 1 && c == dp)
    ensures Live(Adopted(t, i, dp, k, e), a) <==> Live(t, a) || a == i
  {
    PutShape(t[dp].es, k, e);
    DotNames();
  }

  lemma AdoptedNamed(t: Tree, place: Places, i: nat, dp: nat, k: nat, e: Dirent, a: nat, b: nat, c: nat)
    requires CanAdopt(t, i, dp, k, e) && NamedOk(t, place, a, b, c) && !Refers(t, a, b, i)
    ensures NamedOk(Adopted(t, i, dp, k, e), place[i := (dp, k)], a, b, c)
  {
    AdoptedRefers(t, i, dp, k, e, a, b, c);
    PutShape(t[dp].es, k, e);
    hide Refers;
  }

  lemma AdoptedDir(t: Tree, place: Places, i: nat, dp: nat, k: nat, e: Dirent, c: nat)
    requires CanAdopt(t, i, dp, k, e) && DirOk(t, place, c)
    ensures DirOk(Adopted(t, i, dp, k, e), place[i := (dp, k)], c)
  {
    AdoptedRefers(t, i, dp, k, e, c, 0, 0);
    AdoptedRefers(t, i, dp, k, e, dp, k, i);
    if c in place {
      AdoptedRefers(t, i, dp, k, e, place[c].0, place[c].1, c);
    }
    PutShape(t[dp].es, k, e);
    DotNames();
    hide Refers;
  }

  lemma AdoptedCounted(t: Tree, i: nat, dp: nat, k: nat, e: Dirent, c: nat)
    requires CanAdopt(t, i, dp, k, e) && Counted(t, c) && Refs(t, i) == {}
    ensures Counted(Adopted(t, i, dp, k, e), c)
  {
    var t' := Adopted(t, i, dp, k, e);
    forall a: nat, b: nat
      ensures Refers(t', a, b, c) <==>
                Refers(t, a, b, c) || (a == dp && b == k && c == i) || (a == i && b == 1 && c == dp)
    {
      AdoptedRefers(t, i, dp, k, e, a, b, c);
    }
    assert !Refers(t, dp, k, i) && !Refers(t, i, 1, dp);
    hide Refers;
    if c == i {
      RefsAdd(t, t', i, dp, k);
    } else if c == dp {
      RefsAdd(t, t', dp, i, 1);
    } else {
      RefsSame(t, t', c);
    }
  }

  lemma NotNamed(t: Tree, i: nat, a: nat, b: nat)
    requires Refs(t, i) == {}
    ensures !Refers(t, a, b, i)
  {
    assert Refers(t, a, b, i) ==> (a, b) in Refs(t, i);
  }

  lemma AdoptedOk(t: Tree, place: Places, i: nat, dp: nat, k: nat, e: Dirent)
    requires Ok(t, place) && CanAdopt(t, i, dp, k, e) && Refs(t, i) == {}
    ensures Ok(Adopted(t, i, dp, k, e), place[i := (dp, k)])
  {
    hide Refers;
    hide NamedOk;
    hide Counted;
    hide DirOk;
    var t', place' := Adopted(t, i, dp, k, e), place[i := (dp, k)];
    AdoptedRefers(t, i, dp, k, e, ROOT, 0, 0);
    assert 0 !in t';
    hide CanAdopt;
    forall a: nat, b: nat, c: nat
      ensures NamedOk(t', place', a, b, c)
    {
      assert NamedOk(t, place, a, b, c);
      NotNamed(t, i, a, b);
      AdoptedNamed(t, place, i, dp, k, e, a, b, c);
    }
    forall c: nat
      ensures DirOk(t', place', c) && Counted(t', c)
    {
      assert DirOk(t, place, c) && Counted(t, c);
      AdoptedDir(t, place, i, dp, k, e, c);
      AdoptedCounted(t, i, dp, k, e, c);
    }
  }

  /** A file loses the name in slot k of dp. */
  ghost function Dropped(t: Tree, ip: nat, dp: nat, k: nat): (r: Tree)
    requires ip in t && dp in t && k < |t[dp].es|
  {
    t[ip := t[ip].(nlink := t[ip].nlink - 1)][dp := t[dp].(es := t[dp].es[k := Blank()])]
  }

  ghost predicate CanDrop(t: Tree, ip: nat, dp: nat, k: nat) {
    Refers(t, dp, k, ip) && k >= 2 && ip in t && ShapeOk(t, dp)
  }

  lemma DroppedRefers(t: Tree, ip: nat, dp: nat, k: nat, a: nat, b: nat, c: nat)
    requires CanDrop(t, ip, dp, k) && !t[ip].kind.Dir?
    ensures Refers(Dropped(t, ip, dp, k), a, b, c) <==> Refers(t, a, b, c) && !(a == dp && b == k && c == ip)
    ensures Live(Dropped(t, ip, dp, k), a) <==> Live(t, a)
  {
  }

  lemma EraseShape(es: seq<Dirent>, k: nat)
    requires NoDup(es) && 2 <= k < |es|
    ensures NoDup(es[k := Blank()])
  {
  }

  /** An inode that is named has a link. */
  lemma Linked1(t: Tree, i: nat, d: nat, k: nat)
    requires Refers(t, d, k, i) && i in t && Counted(t, i)
    ensures t[i].nlink >= 1
  {
    assert {(d, k)} <= Refs(t, i);
    Larger({(d, k)}, Refs(t, i));
  }

  lemma Larger(a: set<Ref>, b: set<Ref>)
    requires a <= b
    ensures |a| <= |b|
  {
    assert b == a + (b - a);
  }

  lemma DroppedNamed(t: Tree, place: Places, ip: nat, dp: nat, k: nat, a: nat, b: nat, c: nat)
    requires CanDrop(t, ip, dp, k) && !t[ip].kind.Dir? && NamedOk(t, place, a, b, c)
    ensures NamedOk(Dropped(t, ip, dp, k), place, a, b, c)
  {
    DroppedRefers(t, ip, dp, k, a, b, c);
    hide Refers;
  }

  lemma DroppedDir(t: Tree, place: Places, ip: nat, dp: nat, k: nat, c: nat)
    requires CanDrop(t, ip, dp, k) && !t[ip].kind.Dir? && DirOk(t, place, c) && ip != c
    ensures DirOk(Dropped(t, ip, dp, k), place, c)
  {
    DroppedRefers(t, ip, dp, k, c, 0, 0);
    if c in place {
      DroppedRefers(t, ip, dp, k, place[c].0, place[c].1, c);
    }
    EraseShape(t[dp].es, k);
    hide Refers;
  }

  lemma DroppedCounted(t: Tree, ip: nat, dp: nat, k: nat, c: nat)
    requires CanDrop(t, ip, dp, k) && !t[ip].kind.Dir? && Counted(t, c)
    ensures Counted(Dropped(t, ip, dp, k), c)
  {
    var t' := Dropped(t, ip, dp, k);
    forall a: nat, b: nat
      ensures Refers(t', a, b, c) <==> Refers(t, a, b, c) && !(a == dp && b == k && c == ip)
    {
      DroppedRefers(t, ip, dp, k, a, b, c);
    }
    hide Refers;
    if c == ip {
      RefsDrop(t, t', ip, dp, k);
    } else {
      RefsSame(t, t', c);
    }
  }

  lemma DroppedOk(t: Tree, place: Places, ip: nat, dp: nat, k: nat)
    requires Ok(t, place) && CanDrop(t, ip, dp, k) && !t[ip].kind.Dir?
    ensures Ok(Dropped(t, ip, dp, k), place) && t[ip].nlink >= 1
  {
    assert Counted(t, ip);
    Linked1(t, ip, dp, k);
    hide Refers;
    hide NamedOk;
    hide Counted;
    hide DirOk;
    var t' := Dropped(t, ip, dp, k);
    DroppedRefers(t, ip, dp, k, ROOT, 0, 0);
    assert 0 !in t';
    hide CanDrop;
    forall a: nat, b: nat, c: nat
      ensures NamedOk(t', place, a, b, c)
    {
      assert NamedOk(t, place, a, b, c);
      DroppedNamed(t, place, ip, dp, k, a, b, c);
    }
    forall c: nat
      ensures DirOk(t', place, c) && Counted(t', c)
    {
      assert DirOk(t, place, c) && Counted(t, c);
      if c == ip {
        FileDir(t', place, c);
      } else {
        DroppedDir(t, place, ip, dp, k, c);
      }
      DroppedCounted(t, ip, dp, k, c);
    }
  }

  lemma FileDir(t: Tree, place: Places, c: nat)
    requires c in t && !t[c].kind.Dir?
    ensures DirOk(t, place, c)
  {
  }

  /** An empty directory loses its name in slot k of dp, and dp the link for its
      "..". */
  ghost function Removed(t: Tree, ip: nat, dp: nat, k: nat): (r: Tree)
    requires ip in t && dp in t && k < |t[dp].es|
  {
    t[ip := t[ip].(nlink := t[ip].nlink - 1)][dp := t[dp].(nlink := t[dp].nlink - 1, es := t[dp].es[k := Blank()])]
  }

  ghost predicate CanRemove(t: Tree, place: Places, ip: nat, dp: nat, k: nat) {
    Ok(t, place) && CanDrop(t, ip, dp, k) && t[ip].kind.Dir? && forall j :: 2 <= j < |t[ip].es| ==>
        t[ip].es[j].inum == 0
  }

  /** An empty directory is named by its parent only, */
  lemma OnlyName(t: Tree, place: Places, ip: nat, dp: nat, k: nat, a: nat, b: nat)
    requires CanRemove(t, place, ip, dp, k) && Refers(t, a, b, ip)
    ensures a == dp && b == k
  {
    assert NamedOk(t, place, dp, k, ip) && NamedOk(t, place, a, b, ip) && DirOk(t, place, a);
  }

  /** so that it has one link, */
  lemma OneLink(t: Tree, place: Places, ip: nat, dp: nat, k: nat)
    requires CanRemove(t, place, ip, dp, k)
    ensures t[ip].nlink == 1 && Refs(t, ip) == {(dp, k)} && ip != dp && ip != ROOT && Up(t, ip) == dp && ShapeOk(t, ip)
  {
    assert Counted(t, ip) && NamedOk(t, place, dp, k, ip);
    Linked1(t, ip, dp, k);
    assert DirOk(t, place, ip);
    forall r | r in Refs(t, ip)
      ensures r == (dp, k)
    {
      OnlyName(t, place, ip, dp, k, r.0, r.1);
    }
    assert (dp, k) in Refs(t, ip);
    assert Refs(t, ip) == {(dp, k)};
  }

  /** and its parent at least two. */
  lemma TwoLinks(t: Tree, place: Places, ip: nat, dp: nat, k: nat)
    requires CanRemove(t, place, ip, dp, k)
    ensures t[dp].nlink >= 2 && Refers(t, ip, 1, dp)
  {
    OneLink(t, place, ip, dp, k);
    assert DirOk(t, place, dp) && Counted(t, dp);
    var r := if dp == ROOT then (ROOT, 1) else place[dp];
    assert Refers(t, ip, 1, dp) && Refers(t, r.0, r.1, dp);
    assert {(ip, 1), r} <= Refs(t, dp);
    Larger({(ip, 1), r}, Refs(t, dp));
    assert (ip, 1) != r;
  }

  lemma RemovedRefers(t: Tree, place: Places, ip: nat, dp: nat, k: nat, a: nat, b: nat, c: nat)
    requires CanRemove(t, place, ip, dp, k)
    ensures Refers(Removed(t, ip, dp, k), a, b, c) <==>
              Refers(t, a, b, c) && !(a == dp && b == k) && !(a == ip && b == 1)
    ensures Live(Removed(t, ip, dp, k), a) <==> Live(t, a) && a != ip
  {
    OneLink(t, place, ip, dp, k);
    TwoLinks(t, place, ip, dp, k);
  }

  lemma RemovedNamed(t: Tree, place: Places, ip: nat, dp: nat, k: nat, a: nat, b: nat, c: nat)
    requires CanRemove(t, place, ip, dp, k)
    ensures NamedOk(Removed(t, ip, dp, k), place, a, b, c)
  {
    assert NamedOk(t, place, a, b, c);
    RemovedRefers(t, place, ip, dp, k, a, b, c);
    hide Refers;
    hide Ok;
  }

  lemma RemovedDir(t: Tree, place: Places, ip: nat, dp: nat, k: nat, c: nat)
    requires CanRemove(t, place, ip, dp, k)
    ensures DirOk(Removed(t, ip, dp, k), place, c)
  {
    assert DirOk(t, place, c) && NamedOk(t, place, ip, 1, c);
    OneLink(t, place, ip, dp, k);
    RemovedRefers(t, place, ip, dp, k, c, 0, 0);
    if c in place {
      RemovedRefers(t, place, ip, dp, k, place[c].0, place[c].1, c);
    }
    EraseShape(t[dp].es, k);
    hide Refers;
    hide Ok;
  }

  lemma RemovedCounted(t: Tree, place: Places, ip: nat, dp: nat, k: nat, c: nat)
    requires CanRemove(t, place, ip, dp, k)
    ensures Counted(Removed(t, ip, dp, k), c)
  {
    var t' := Removed(t, ip, dp, k);
    assert Counted(t, c);
    forall a: nat, b: nat
      ensures Refers(t', a, b, c) <==> Refers(t, a, b, c) && !(a == dp && b == k) && !(a == ip && b == 1)
      ensures Refers(t, a, b, c) && a == dp && b == k ==> c == ip
      ensures Refers(t, a, b, c) && a == ip && b == 1 ==> c == dp
    {
      RemovedRefers(t, place, ip, dp, k, a, b, c);
      OneLink(t, place, ip, dp, k);
    }
    OneLink(t, place, ip, dp, k);
    TwoLinks(t, place, ip, dp, k);
    hide Refers;
    hide Ok;
    if c == ip {
      RefsDrop(t, t', ip, dp, k);
    } else if c == dp {
      RefsDrop(t, t', dp, ip, 1);
    } else {
      RefsSame(t, t', c);
    }
  }

  lemma RemovedOk(t: Tree, place: Places, ip: nat, dp: nat, k: nat)
    requires CanRemove(t, place, ip, dp, k)
    ensures Ok(Removed(t, ip, dp, k), place) && t[ip].nlink == 1
  {
    hide Refers;
    hide NamedOk;
    hide Counted;
    hide DirOk;
    OneLink(t, place, ip, dp, k);
    var t' := Removed(t, ip, dp, k);
    RemovedRefers(t, place, ip, dp, k, ROOT, 0, 0);
    assert 0 !in t';
    hide CanRemove;
    forall a: nat, b: nat, c: nat
      ensures NamedOk(t', place, a, b, c)
    {
      RemovedNamed(t, place, ip, dp, k, a, b, c);
    }
    forall c: nat
      ensures DirOk(t', place, c) && Counted(t', c)
    {
      RemovedDir(t, place, ip, dp, k, c);
      RemovedCounted(t, place, ip, dp, k, c);
    }
  }

  /** An inode without links can go. */
  lemma FreedOk(t: Tree, place: Places, i: nat)
    requires Ok(t, place) && i in t && t[i].nlink == 0
    ensures Ok(t - {i}, place)
  {
    var t' := t - {i};
    assert Counted(t, i);
    forall a: nat, b: nat, c: nat
      ensures Refers(t', a, b, c) <==> Refers(t, a, b, c)
      ensures NamedOk(t', place, a, b, c)
    {
      assert NamedOk(t, place, a, b, c);
      NotNamed(t, i, a, b);
    }
    forall c: nat
      ensures DirOk(t', place, c)
    {
      assert DirOk(t, place, c);
    }
    hide DirOk;
    hide NamedOk;
    forall c: nat
      ensures Counted(t', c)
    {
      assert Counted(t, c);
      RefsSame(t, t', c);
    }
  }

  /** The root directory as mkfs makes it, named by its own "..". */
  lemma RootOk()
    ensures Ok(map[ROOT := Inode(Dir, 1, Dots(ROOT, ROOT))], map[])
  {
    DotNames();
    var t := map[ROOT := Inode(Dir, 1, Dots(ROOT, ROOT))];
    assert Refers(t, ROOT, 1, ROOT);
    forall i: nat
      ensures Refs(t, i) == if i == ROOT then {(ROOT, 1)} else {}
    {
    }
  }

  /** Every count is right, and every entry names an inode in use. */
  ghost predicate Right(t: Tree) {
    (forall i: nat :: Counted(t, i)) && (forall d: nat, k: nat, c: nat :: Refers(t, d, k, c) ==> c in t)
  }

  lemma OkRight(t: Tree, place: Places)
    requires Ok(t, place)
    ensures Right(t)
  {
    hide Refers;
    hide Counted;
    hide DirOk;
    forall d: nat, k: nat, c: nat | Refers(t, d, k, c)
      ensures c in t
    {
      assert NamedOk(t, place, d, k, c);
    }
  }

  /** The count of inode i as its 16 bits hold it. */
  function Stored(t: Tree, i: nat): (r: Tree)
    requires i in t
  {
    t[i := t[i].(nlink := Short(t[i].nlink))]
  }

  /** A count that went over the largest short is wrong, whatever the entries. */
  lemma StoredRight(t: Tree, i: nat, right: bool)
    requires i in t && 0 < t[i].nlink <= MAXLINK + 1 && (Right(t) <==> right)
    ensures Right(Stored(t, i)) <==> right && t[i].nlink <= MAXLINK
    ensures t[i].nlink <= MAXLINK ==> Stored(t, i) == t
  {
    hide Refers;
    hide Refs;
    if t[i].nlink > MAXLINK {
      assert !Counted(Stored(t, i), i);
    } else {
      assert Stored(t, i) == t;
    }
  }

  /** A directory that sys_unlink has removed and someone still has open. */
  ghost predicate Orphan(t: Tree, d: nat) {
    d in t && t[d].kind.Dir? && t[d].nlink == 0 && ShapeOk(t, d)
  }

  /** An empty slot of dp for a name that dp does not have. */
  ghost predicate Vacant(t: Tree, dp: nat, k: nat, e: Dirent) {
    && dp in t && k <= |t[dp].es| && (k < |t[dp].es| ==> t[dp].es[k].inum == 0) && e.inum != 0
    && forall j: nat :: !Says(t[dp].es, j, Name(e))
  }

  /** No one counts an entry in an orphan. */
  lemma OrphanLinked(t: Tree, ip: nat, dp: nat, k: nat, e: Dirent)
    requires Orphan(t, dp) && Vacant(t, dp, k, e) && ip in t && !t[ip].kind.Dir? && Counted(t, ip)
    ensures !Counted(Linked(t, ip, dp, k, e), ip)
  {
    var t' := Linked(t, ip, dp, k, e);
    forall a: nat, b: nat
      ensures Refers(t', a, b, ip) <==> Refers(t, a, b, ip)
    {
    }
    hide Refers;
    RefsSame(t, t', ip);
  }

  /** sys_link of an existing file, in any directory: the counts are right exactly
      when the directory is still linked, which the code does not ask. In an orphan
      it is the file's count that is wrong. */
  lemma LinkRight(t: Tree, place: Places, ip: nat, dp: nat, k: nat, e: Dirent)
    requires Ok(t, place) && (Live(t, dp) || Orphan(t, dp)) && Vacant(t, dp, k, e)
    requires e.inum == ip && ip in t && !t[ip].kind.Dir?
    ensures var t' := Linked(t, ip, dp, k, e);
            && (Right(t') <==> Live(t, dp)) && (Live(t, dp) ==> Ok(t', place)) && (!Live(t, dp) ==> !Counted(t', ip))
  {
    hide Refers;
    hide Counted;
    if Live(t, dp) {
      LinkedOk(t, place, ip, dp, k, e);
      OkRight(Linked(t, ip, dp, k, e), place);
    } else {
      assert Counted(t, ip);
      OrphanLinked(t, ip, dp, k, e);
    }
  }

  /** create of a file, likewise. */
  lemma CreateFileRight(t: Tree, place: Places, i: nat, kind: Kind, dp: nat, k: nat, e: Dirent)
    requires Ok(t, place) && (Live(t, dp) || Orphan(t, dp)) && Vacant(t, dp, k, e) && e.inum == i && i !in t
             && !kind.Dir?
    ensures var t' := Linked(Added(t, i, kind, []), i, dp, k, e);
            && (Right(t') <==> Live(t, dp)) && (Live(t, dp) ==> Ok(t', place)) && (!Live(t, dp) ==> !Counted(t', i))
  {
    hide Ok;
    AddedOk(t, place, i, kind, []);
    LinkRight(Added(t, i, kind, []), place, i, dp, k, e);
  }

  /** The link that create gives an orphan for a new directory's ".." brings the
      orphan's own entries back to life, ".." among them. */
  lemma OrphanAdopted(t: Tree, i: nat, dp: nat, k: nat, e: Dirent)
    requires Orphan(t, dp) && Vacant(t, dp, k, e) && e.inum == i && i != dp && i in t
             && t[i] == Inode(Dir, 0, Dots(i, dp))
    ensures var t' := Adopted(t, i, dp, k, e);
            && Refers(t', dp, 1, Up(t, dp)) && Refers(t', dp, k, i) && Refers(t', i, 1, dp) && k != 1
            && !Refers(t, dp, 1, Up(t, dp))
            && forall a: nat, b: nat, c: nat :: Refers(t, a, b, c) ==> Refers(t', a, b, c)
  {
    DotNames();
    PutShape(t[dp].es, k, e);
  }

  lemma OneMore(t: Tree, t': Tree, i: nat, r: Ref)
    requires Refers(t', r.0, r.1, i) && !Refers(t, r.0, r.1, i)
    requires forall a: nat, b: nat :: Refers(t, a, b, i) ==> Refers(t', a, b, i)
    ensures |Refs(t', i)| > |Refs(t, i)|
  {
    assert Refs(t, i) + {r} <= Refs(t', i);
    Larger(Refs(t, i) + {r}, Refs(t', i));
  }

  lemma TwoRefs(t: Tree, i: nat, r: Ref, s: Ref)
    requires Refers(t, r.0, r.1, i) && Refers(t, s.0, s.1, i) && r != s
    ensures |Refs(t, i)| >= 2
  {
    assert {r, s} <= Refs(t, i);
    Larger({r, s}, Refs(t, i));
  }

  lemma OrphanWrong(t: Tree, i: nat, dp: nat, k: nat, e: Dirent)
    requires Orphan(t, dp) && Vacant(t, dp, k, e) && e.inum == i && i != dp && i in t
             && t[i] == Inode(Dir, 0, Dots(i, dp))
    requires Counted(t, Up(t, dp))
    ensures var t' := Adopted(t, i, dp, k, e); Up(t, dp) in t' ==> !Counted(t', Up(t, dp))
    ensures !Right(Adopted(t, i, dp, k, e))
  {
    hide Refers;
    hide NoDup;
    OrphanAdopted(t, i, dp, k, e);
    var t', u := Adopted(t, i, dp, k, e), Up(t, dp);
    if u == i {
      TwoRefs(t', i, (dp, 1), (dp, k));
    } else if u == dp {
      TwoRefs(t', dp, (dp, 1), (i, 1));
    } else {
      OneMore(t, t', u, (dp, 1));
    }
  }

  /** create of a directory, likewise; in an orphan it is the count of the inode
      that the orphan's ".." names that is wrong, or that inode is gone. */
  lemma CreateDirRight(t: Tree, place: Places, i: nat, dp: nat, k: nat, e: Dirent)
    requires Ok(t, place) && (Live(t, dp) || Orphan(t, dp)) && Vacant(t, dp, k, e) && e.inum == i && i !in t
    ensures var t' := Adopted(Added(t, i, Dir, Dots(i, dp)), i, dp, k, e);
            && (Right(t') <==> Live(t, dp)) && (Live(t, dp) ==> Ok(t', place[i := (dp, k)]))
            && (!Live(t, dp) ==> Up(t, dp) !in t' || !Counted(t', Up(t, dp)))
  {
    hide Refers;
    hide NoDup;
    var t1 := Added(t, i, Dir, Dots(i, dp));
    var t' := Adopted(t1, i, dp, k, e);
    AddedOk(t, place, i, Dir, Dots(i, dp));
    assert Counted(t1, Up(t, dp));
    hide Counted;
    if Live(t, dp) {
      CreateOk(t, place, i, Dir, dp, k, e);
      OkRight(t', place[i := (dp, k)]);
    } else {
      OrphanWrong(t1, i, dp, k, e);
    }
  }

  lemma NotNegative(t: Tree, place: Places, i: nat)
    requires Ok(t, place) && i in t
    ensures t[i].nlink >= 0
  {
    hide Refers;
    hide Refs;
    assert Counted(t, i);
  }

  /** With counts of 16 bits, one that is full already is the other way to go
      wrong. */
  lemma LinkStored(t: Tree, place: Places, ip: nat, dp: nat, k: nat, e: Dirent)
    requires Ok(t, place) && (Live(t, dp) || Orphan(t, dp)) && Vacant(t, dp, k, e)
    requires e.inum == ip && ip in t && !t[ip].kind.Dir? && t[ip].nlink <= MAXLINK
    ensures var t' := Stored(Linked(t, ip, dp, k, e), ip);
            && (Right(t') <==> Live(t, dp) && t[ip].nlink < MAXLINK) && (Right(t') ==> Ok(t', place))
  {
    hide Ok;
    hide Right;
    LinkRight(t, place, ip, dp, k, e);
    NotNegative(t, place, ip);
    StoredRight(Linked(t, ip, dp, k, e), ip, Live(t, dp));
  }

  lemma CreateDirStored(t: Tree, place: Places, i: nat, dp: nat, k: nat, e: Dirent)
    requires Ok(t, place) && (Live(t, dp) || Orphan(t, dp)) && Vacant(t, dp, k, e) && e.inum == i && i !in t
    requires t[dp].nlink <= MAXLINK
    ensures var t' := Stored(Adopted(Added(t, i, Dir, Dots(i, dp)), i, dp, k, e), dp);
            && (Right(t') <==> Live(t, dp) && t[dp].nlink < MAXLINK) && (Right(t') ==> Ok(t', place[i := (dp, k)]))
  {
    hide Ok;
    hide Right;
    hide Dots;
    CreateDirRight(t, place, i, dp, k, e);
    NotNegative(t, place, dp);
    StoredRight(Adopted(Added(t, i, Dir, Dots(i, dp)), i, dp, k, e), dp, Live(t, dp));
  }

  /** "d", for inode 2. */
  function NameD(): (e: Dirent) {
    Dirent(2, Pack([100]))
  }

  /** The root alone, */
  ghost function RootTree(): (t: Tree) {
    map[ROOT := Inode(Dir, 1, Dots(ROOT, ROOT))]
  }

  /** with a directory made in it and removed again, which leaves a blank entry. */
  ghost function AfterRmdir(): (t: Tree) {
    Removed(Adopted(Added(RootTree(), 2, Dir, Dots(2, ROOT)), 2, ROOT, 2, NameD()), 2, ROOT, 2)
  }

  /** "a", for inode 3. */
  function NameA(): (e: Dirent) {
    Dirent(3, Pack([97]))
  }

  lemma VacantA(d: nat)
    requires d == ROOT || d == 2
    ensures Vacant(AfterRmdir(), d, 2, NameA())
  {
    DotNames();
    UnpackPack([97]);
    assert DOT != [97] && DOTDOT != [97];
    var es := AfterRmdir()[d].es;
    forall j: nat
      ensures !Says(es, j, Name(NameA()))
    {
      assert j < |es| ==> j == 0 || j == 1 || es[j].inum == 0;
    }
  }

  /** A file, a directory and a second name for a file, made in the directory that
      was removed: the file's count is wrong, the root's is, and the file's. */
  lemma OrphanCounts()
    ensures Ok(AfterRmdir(), map[2 := (ROOT, 2)]) && Orphan(AfterRmdir(), 2)
    ensures !Counted(Linked(Added(AfterRmdir(), 3, File, []), 3, 2, 2, NameA()), 3)
    ensures !Counted(Adopted(Added(AfterRmdir(), 3, Dir, Dots(3, 2)), 3, 2, 2, NameA()), ROOT)
    ensures var t1 := Linked(Added(AfterRmdir(), 3, File, []), 3, ROOT, 2, NameA());
            Ok(t1, map[2 := (ROOT, 2)]) && !Counted(Linked(t1, 3, 2, 2, NameA()), 3)
  {
    var t, e, place := AfterRmdir(), NameA(), map[2 := (ROOT, 2)];
    OrphanOk();
    DotNames();
    VacantA(ROOT);
    VacantA(2);
    hide Ok;
    hide Counted;
    CreateFileRight(t, place, 3, File, 2, 2, e);
    CreateDirRight(t, place, 3, 2, 2, e);
    CreateFileRight(t, place, 3, File, ROOT, 2, e);
    LinkRight(Linked(Added(t, 3, File, []), 3, ROOT, 2, e), place, 3, 2, 2, e);
  }

  /** mkdir and rmdir keep every count, and leave the directory for who has it open. */
  lemma OrphanOk()
    ensures Ok(AfterRmdir(), map[2 := (ROOT, 2)]) && Orphan(AfterRmdir(), 2)
  {
    hide Ok;
    DotNames();
    UnpackPack([100]);
    RootOk();
    var e := NameD();
    assert forall j: nat :: !Says(Dots(ROOT, ROOT), j, Name(e));
    CreateDirRight(RootTree(), map[], 2, ROOT, 2, e);
    var t, place := Adopted(Added(RootTree(), 2, Dir, Dots(2, ROOT)), 2, ROOT, 2, e), map[2 := (ROOT, 2)];
    assert map[][2 := (ROOT, 2)] == place;
    RemovedOk(t, place, 2, ROOT, 2);
  }

  /** What create's steps come to: a directory, */
  lemma DirMade(t: Tree, i: nat, kind: Kind, dp: nat, k: nat, e: Dirent)
    requires i !in t && dp in t && k <= |t[dp].es|
    ensures var d := t[dp].(es := Put(t[dp].es, k, e));
            Stored(Adopted(Added(t, i, kind, Dots(i, dp)), i, dp, k, e), dp) ==
            t[i := Inode(kind, 1, [])][i := Inode(kind, 1, Dots(i, dp))][dp := d][dp := d.(nlink := Short(d.nlink + 1))]
  {
  }

  /** a file, */
  lemma FileMade(t: Tree, i: nat, kind: Kind, dp: nat, k: nat, e: Dirent)
    requires i !in t && dp in t && k <= |t[dp].es|
    ensures t[i := Inode(kind, 1, [])][dp := t[dp].(es := Put(t[dp].es, k, e))] ==
              Linked(Added(t, i, kind, []), i, dp, k, e)
  {
  }

  /** a second name, */
  lemma LinkMade(t: Tree, ip: nat, dp: nat, k: nat, e: Dirent)
    requires ip in t && dp in t && ip != dp && k <= |t[dp].es|
    ensures var t1 := t[ip := t[ip].(nlink := Short(t[ip].nlink + 1))];
            t1[dp := t1[dp].(es := Put(t[dp].es, k, e))] == Stored(Linked(t, ip, dp, k, e), ip)
  {
  }

  /** or nothing. */
  lemma GivenUp(t: Tree, t1: Tree, i: nat, b: Inode)
    requires i !in t && t1.Keys == t.Keys + {i} && forall j :: j in t ==> t1[j] == t[j]
    ensures t1[i := b] - {i} == t
  {
  }

  /** The name is there, and of inodes only whose count is not positive. */
  ghost predicate UnlinkPanics(t: Tree, dp: nat, name: CString) {
    && dp in t && Cut(name) != DOT && Cut(name) != DOTDOT && (exists k: nat :: Says(t[dp].es, k, Cut(name)))
    && forall k: nat :: Says(t[dp].es, k, Cut(name)) ==> t[dp].es[k].inum in t && t[t[dp].es[k].inum].nlink < 1
  }

  lemma NotThere(t: Tree, dp: nat, name: CString)
    requires dp in t
    ensures Cut(name) == DOT || Cut(name) == DOTDOT || (forall j: nat :: !Says(t[dp].es, j, Cut(name))) ==>
              !UnlinkPanics(t, dp, name)
  {
  }

  lemma PanicsAt(t: Tree, dp: nat, name: CString, k: nat)
    requires UnlinkPanics(t, dp, name) && Says(t[dp].es, k, Cut(name))
    ensures t[dp].es[k].inum in t && t[t[dp].es[k].inum].nlink < 1
  {
  }

  lemma NoUnlinkPanic(t: Tree, place: Places, dp: nat, name: CString)
    requires Ok(t, place) && Live(t, dp)
    ensures !UnlinkPanics(t, dp, name)
  {
    hide Ok;
    if k: nat :| Says(t[dp].es, k, Cut(name)) {
      Exists(t, place, dp, k, t[dp].es[k].inum);
    }
  }

  /** A new inode i, named by entry k of dp. */
  ghost function Entered(t: Tree, dp: nat, kind: Kind, i: nat, k: nat, e: Dirent): (r: Tree)
    requires dp in t && k <= |t[dp].es| && i !in t
  {
    if kind.Dir? then Stored(Adopted(Added(t, i, kind, Dots(i, dp)), i, dp, k, e), dp)
    else Linked(Added(t, i, kind, []), i, dp, k, e)
  }

  class Files {
    var t: Tree
    const ninodes: nat
    ghost var place: Places

    ghost predicate Valid()
      reads this
    {
      Ok(t, place)
    }

    /** ialloc: the first inode not in use, 0 if there is none. */
    method Ialloc() returns (i: nat)
      ensures i == 0 <==> forall j: nat :: 1 <= j < ninodes ==> j in t
      ensures i != 0 ==> i < ninodes && i !in t && forall j: nat :: 1 <= j < i ==> j in t
    {
      i := 1;
      while i < ninodes
        invariant 1 <= i && forall j: nat :: 1 <= j < i && j < ninodes ==> j in t
      {
        if i !in t {
          return;
        }
        i := i + 1;
      }
      i := 0;
    }

    /** dirlink of "." and ".." in a new directory. */
    method MakeDots(i: nat, dp: nat, first: bool, second: bool) returns (ok: bool, es: seq<Dirent>)
      requires i != 0 && dp != 0
      ensures ok <==> first && second
      ensures ok ==> es == Dots(i, dp)
    {
      DotNames();
      var slot;
      ok, es, slot := Dirlink([], DOT, i, first);
      if ok {
        assert es == [Dirent(i, Pack(DOT))];
        ok, es, slot := Dirlink(es, DOTDOT, dp, second);
      }
    }

    /** create, in a parent that is still linked or was removed. `room` says whether
        the parent can grow by an entry, `first` and `second` whether a new
        directory can. On failure the new inode is given up and all is as it was. */
    method Create(dp: nat, name: CString, kind: Kind, room: bool, first: bool, second: bool)
        returns (res: Option<nat>, ghost k: nat)
      requires Valid() && (Live(t, dp) || Orphan(t, dp)) && t[dp].nlink <= MAXLINK
      requires forall j: nat :: Orphan(t, dp) && Says(t[dp].es, j, Cut(name)) ==> t[dp].es[j].inum in t
      modifies this
      ensures Right(t) ==> Valid()
      ensures Right(t) <==>
                || res.None? || res.value in old(t)
                || (old(Live(t, dp)) && (kind.Dir? ==> old(t)[dp].nlink < MAXLINK))
      ensures res.None? ==> t == old(t)
      ensures res.None? ==>
                if exists j: nat :: Says(t[dp].es, j, Cut(name)) then
                  Says(t[dp].es, k, Cut(name)) && t[dp].es[k].inum in t
                    && (kind == File ==> t[t[dp].es[k].inum].kind.Dir?)
                else
                  || (forall j: nat :: 1 <= j < ninodes ==> j in t)
                  || (kind.Dir? && !(first && second)) || (!room && Full(t[dp].es))
      ensures res.Some? ==> res.value != 0 && res.value in t
      ensures res.Some? && res.value in old(t) ==>
                t == old(t) && kind == File && !t[res.value].kind.Dir?
                && Says(t[dp].es, k, Cut(name)) && t[dp].es[k].inum == res.value
      ensures res.Some? && res.value !in old(t) ==>
                (forall j: nat :: !Says(old(t)[dp].es, j, Cut(name))) && Made(old(t), t, dp, name, kind, res.value, k)
    {
      hide Ok;
      hide Denotes;
      hide Full;
      hide Right;
      OkRight(t, place);
      res, k := None, 0;
      var found := Dirlookup(t[dp].es, name);
      if found.Some? {
        k := found.value;
        var ip := t[dp].es[found.value].inum;
        if Live(t, dp) {
          Exists(t, place, dp, k, ip);
        }
        if kind == File && !t[ip].kind.Dir? {
          return Some(ip), k;
        }
        return;
      }
      res, k := Make(dp, name, kind, room, first, second);
    }

    /** The first free inode i becomes an empty file or directory, named in slot k
        of dp. */
    ghost predicate Made(t0: Tree, t1: Tree, dp: nat, name: CString, kind: Kind, i: nat, k: nat) {
      && i < ninodes && i !in t0 && (forall j: nat :: 1 <= j < i ==> j in t0) && dp in t0 && k <= |t0[dp].es|
      && t1 == Entered(t0, dp, kind, i, k, Dirent(i, Pack(name)))
    }

    /** create, once the name is known to be new. */
    method Make(dp: nat, name: CString, kind: Kind, room: bool, first: bool, second: bool)
        returns (res: Option<nat>, ghost k: nat)
      requires Valid() && (Live(t, dp) || Orphan(t, dp)) && t[dp].nlink <= MAXLINK
      requires forall j: nat :: !Says(t[dp].es, j, Cut(name))
      modifies this
      ensures Right(t) ==> Valid()
      ensures Right(t) <==> res.None? || (old(Live(t, dp)) && (kind.Dir? ==> old(t)[dp].nlink < MAXLINK))
      ensures res.None? ==> t == old(t)
      ensures res.None? <==>
                || (forall j: nat :: 1 <= j < ninodes ==> j in old(t))
                || (kind.Dir? && !(first && second)) || (!room && Full(old(t)[dp].es))
      ensures res.Some? ==> res.value != 0 && res.value in t && Made(old(t), t, dp, name, kind, res.value, k)
    {
      hide Ok;
      hide Denotes;
      hide Full;
      hide Dots;
      hide Linked;
      hide Adopted;
      hide Right;
      hide Stored;
      hide Short;
      hide NoDup;
      hide Put;
      hide Added;
      hide Entered;
      OkRight(t, place);
      res, k := None, 0;
      var i := Ialloc();
      if i == 0 {
        return;
      }
      NotZero(t, place, dp);
      t := t[i := Inode(kind, 1, [])];
      var ok := true;
      if kind.Dir? {
        var dots;
        ok, dots := MakeDots(i, dp, first, second);
        if ok {
          t := t[i := t[i].(es := dots)];
        }
      }
      var es, slot := [], 0;
      if ok {
        ok, es, slot := Dirlink(t[dp].es, name, i, room);
      }
      if !ok {
        GivenUp(old(t), t, i, t[i].(nlink := 0));
        t := t[i := t[i].(nlink := 0)];
        t := t - {i};
        return;
      }
      k := slot;
      Enter(i, dp, name, kind, es, k, old(t));
      res := Some(i);
    }

    /** The end of create: the name is in the parent, which a new directory's ".." names. */
    method Enter(i: nat, dp: nat, name: CString, kind: Kind, es: seq<Dirent>, ghost k: nat, ghost t0: Tree)
      requires Ok(t0, place) && (Live(t0, dp) || Orphan(t0, dp)) && t0[dp].nlink <= MAXLINK && i !in t0 && i != 0
      requires t == if kind.Dir? then t0[i := Inode(kind, 1, [])][i := Inode(kind, 1, Dots(i, dp))]
                    else t0[i := Inode(kind, 1, [])]
      requires k <= |t0[dp].es| && (k < |t0[dp].es| ==> t0[dp].es[k].inum == 0)
      requires (forall j: nat :: !Says(t0[dp].es, j, Cut(name))) && es == Put(t0[dp].es, k, Dirent(i, Pack(name)))
      modifies this`t, this`place
      ensures Right(t) ==> Valid()
      ensures Right(t) <==> Live(t0, dp) && (kind.Dir? ==> t0[dp].nlink < MAXLINK)
      ensures i in t && t == Entered(t0, dp, kind, i, k, Dirent(i, Pack(name)))
    {
      hide Ok;
      hide Dots;
      hide Linked;
      hide Adopted;
      hide Right;
      hide Stored;
      hide Short;
      hide NoDup;
      hide Put;
      hide Added;
      UnpackPack(name);
      ghost var e := Dirent(i, Pack(name));
      if kind.Dir? {
        CreateDirStored(t0, place, i, dp, k, e);
        DirMade(t0, i, kind, dp, k, e);
      } else {
        CreateFileRight(t0, place, i, kind, dp, k, e);
        FileMade(t0, i, kind, dp, k, e);
      }
      t := t[dp := t[dp].(es := es)];
      if kind.Dir? {
        t := t[dp := t[dp].(nlink := Short(t[dp].nlink + 1))];
        place := place[i := (dp, k)];
      }
    }

    /** sys_link's work on the inode ip and the directory dp, which is still
        linked or was removed. The count goes up first, and down again on failure. */
    method Link(ip: nat, dp: nat, name: CString, room: bool) returns (ok: bool, ghost k: nat)
      requires Valid() && ip in t && (Live(t, dp) || Orphan(t, dp)) && t[ip].nlink <= MAXLINK
      modifies this`t
      ensures Right(t) ==> Valid()
      ensures Right(t) <==> !ok || (old(Live(t, dp)) && old(t)[ip].nlink < MAXLINK)
      ensures !ok ==> t == old(t)
      ensures ok <==> !old(t)[ip].kind.Dir? && (forall j: nat :: !Says(old(t)[dp].es, j, Cut(name)))
                      && (room || !Full(old(t)[dp].es))
      ensures ok ==>
                k <= |old(t)[dp].es| && t == Stored(Linked(old(t), ip, dp, k, Dirent(ip, Pack(name))), ip)
    {
      hide Ok;
      hide Right;
      hide Short;
      hide Linked;
      hide Stored;
      OkRight(t, place);
      if t[ip].kind.Dir? {
        return false, 0;
      }
      NotZero(t, place, ip);
      NotNegative(t, place, ip);
      ShortBack(t[ip].nlink);
      t := t[ip := t[ip].(nlink := Short(t[ip].nlink + 1))];
      var linked, es, slot := Dirlink(t[dp].es, name, ip, room);
      if !linked {
        t := t[ip := t[ip].(nlink := Short(t[ip].nlink - 1))];
        assert t == old(t);
        return false, 0;
      }
      k := slot;
      UnpackPack(name);
      LinkStored(old(t), place, ip, dp, k, Dirent(ip, Pack(name)));
      LinkMade(old(t), ip, dp, k, Dirent(ip, Pack(name)));
      t := t[dp := t[dp].(es := es)];
      ok := true;
    }

    /** sys_unlink's work on the directory dp, which is still linked, or was removed
        and hence empty. The panic "unlink: nlink < 1" is out of reach where counts
        are right, and reached where the one of the inode to be unlinked is not
        positive. */
    method Unlink(dp: nat, name: CString) returns (panic: bool, ok: bool, ghost k: nat)
      requires dp in t
      requires || (Valid() && (Live(t, dp)
                               || (Orphan(t, dp) && forall j :: 2 <= j < |t[dp].es| ==> t[dp].es[j].inum == 0)))
               || UnlinkPanics(t, dp, name)
      modifies this`t
      ensures panic <==> UnlinkPanics(old(t), dp, name)
      ensures panic ==> !ok && t == old(t)
      ensures (old(Valid()) ==> Valid()) && (old(Valid() && Live(t, dp)) ==> !panic)
      ensures !ok ==> t == old(t)
      ensures !ok && !panic ==>
                || Cut(name) == DOT || Cut(name) == DOTDOT || (forall j: nat :: !Says(t[dp].es, j, Cut(name)))
                || (Says(t[dp].es, k, Cut(name)) && t[dp].es[k].inum in t && t[t[dp].es[k].inum].kind.Dir?
                    && exists j :: 2 <= j < |t[t[dp].es[k].inum].es| && t[t[dp].es[k].inum].es[j].inum != 0)
      ensures ok ==>
                && Says(old(t)[dp].es, k, Cut(name)) && Cut(name) != DOT && Cut(name) != DOTDOT
                   && old(t)[dp].es[k].inum in old(t)
                && var ip := old(t)[dp].es[k].inum;
                   && t == (if old(t)[ip].kind.Dir? then Removed(old(t), ip, dp, k) else Dropped(old(t), ip, dp, k))
                   && (old(t)[ip].kind.Dir? ==> old(t)[ip].nlink == 1 && forall j :: 2 <= j < |old(t)[ip].es| ==>
                         old(t)[ip].es[j].inum == 0)
    {
      hide Ok;
      hide UnlinkPanics;
      hide Denotes;
      hide CanDrop;
      hide Removed;
      hide Dropped;
      panic := false;
      NotThere(t, dp, name);
      if Cut(name) == DOT || Cut(name) == DOTDOT {
        return false, false, 0;
      }
      OrphanEmpty(t, dp, Cut(name));
      var found := Dirlookup(t[dp].es, name);
      if found.None? {
        return false, false, 0;
      }
      var slot := found.value;
      k := slot;
      var ip := t[dp].es[slot].inum;
      if Valid() && Live(t, dp) {
        Exists(t, place, dp, k, ip);
        NoUnlinkPanic(t, place, dp, name);
      } else {
        PanicsAt(t, dp, name, k);
      }
      if t[ip].nlink < 1 {
        return true, false, k;
      }
      ok := Erase(dp, slot, ip);
    }

    /** The rest of sys_unlink, once the entry in slot k is found. */
    method Erase(dp: nat, k: nat, ip: nat) returns (ok: bool)
      requires Valid() && ip in t && CanDrop(t, ip, dp, k)
      modifies this`t
      ensures Valid() && (!ok ==> t == old(t))
      ensures old(t)[ip].nlink >= 1
      ensures old(t)[ip].kind.Dir? ==> (ok <==> forall j :: 2 <= j < |old(t)[ip].es| ==> old(t)[ip].es[j].inum == 0)
      ensures ok ==> t == if old(t)[ip].kind.Dir? then Removed(old(t), ip, dp, k) else Dropped(old(t), ip, dp, k)
      ensures ok && old(t)[ip].kind.Dir? ==> old(t)[ip].nlink == 1
      ensures !old(t)[ip].kind.Dir? ==> ok
    {
      hide Ok;
      Exists(t, place, dp, k, ip);
      if t[ip].kind.Dir? {
        var empty := IsDirEmpty(t[ip].es);
        if !empty {
          return false;
        }
        RemovedOk(t, place, ip, dp, k);
        OneLink(t, place, ip, dp, k);
        t := t[dp := t[dp].(nlink := t[dp].nlink - 1, es := t[dp].es[k := Blank()])];
      } else {
        DroppedOk(t, place, ip, dp, k);
        t := t[dp := t[dp].(es := t[dp].es[k := Blank()])];
      }
      t := t[ip := t[ip].(nlink := t[ip].nlink - 1)];
      assert t == if old(t)[ip].kind.Dir? then Removed(old(t), ip, dp, k) else Dropped(old(t), ip, dp, k);
      ok := true;
    }

    /** The freeing half of iput: the last reference to an inode without links is
        gone. */
    method Reclaim(i: nat)
      requires Valid() && i in t && t[i].nlink == 0
      modifies this`t
      ensures Valid() && t == old(t) - {i}
    {
      FreedOk(t, place, i);
      t := t - {i};
    }
  }

  lemma OrphanEmpty(t: Tree, dp: nat, name: CString)
    requires name != DOT && name != DOTDOT
    ensures Orphan(t, dp) && (forall j :: 2 <= j < |t[dp].es| ==> t[dp].es[j].inum == 0) ==>
              forall j: nat :: !Says(t[dp].es, j, name)
  {
  }

  lemma NotZero(t: Tree, place: Places, i: nat)
    requires Ok(t, place) && i in t
    ensures i != 0
  {
  }

  /** What a lookup finds exists and has a link. */
  lemma Exists(t: Tree, place: Places, dp: nat, k: nat, ip: nat)
    requires Ok(t, place) && Live(t, dp) && k < |t[dp].es| && t[dp].es[k].inum == ip && ip != 0
    ensures ShapeOk(t, dp) && ip in t && t[ip].nlink >= 1
    ensures Name(t[dp].es[k]) != DOT && Name(t[dp].es[k]) != DOTDOT ==> k >= 2 && CanDrop(t, ip, dp, k)
  {
    assert DirOk(t, place, dp);
    if Name(t[dp].es[k]) != DOT {
      assert NamedOk(t, place, dp, k, ip);
      assert Counted(t, ip);
      Linked1(t, ip, dp, k);
    } else {
      assert Says(t[dp].es, 0, DOT) && Says(t[dp].es, k, DOT);
    }
  }

  lemma CreateOk(t: Tree, place: Places, i: nat, kind: Kind, dp: nat, k: nat, e: Dirent)
    requires Ok(t, place) && i !in t && i != 0 && CanPut(t, dp, k, e) && e.inum == i
    ensures !kind.Dir? ==> Ok(Linked(Added(t, i, kind, []), i, dp, k, e), place)
    ensures kind.Dir? ==> Ok(Adopted(Added(t, i, kind, Dots(i, dp)), i, dp, k, e), place[i := (dp, k)])
  {
    var es := if kind.Dir? then Dots(i, dp) else [];
    AddedOk(t, place, i, kind, es);
    var t1 := Added(t, i, kind, es);
    if kind.Dir? {
      assert DirOk(t, place, dp);
      Unnamed(t, place, i);
      forall a: nat, b: nat
        ensures Refers(t1, a, b, i) <==> Refers(t, a, b, i)
      {
        AddedRefers(t, i, kind, es, a, b, i);
      }
      assert Refs(t1, i) == {};
      AdoptedOk(t1, place, i, dp, k, e);
    } else {
      LinkedOk(t1, place, i, dp, k, e);
    }
  }
}
