/** The largest link count that the short in struct dinode (kernel/fs.h) can hold, reached
    by a mkdir, a create and sys_link, with directories no larger than a file can be
    and names without a slash. */
module LinkLimit {
  import opened Base
  import opened Directory
  import opened Links

  /** The most entries that fit in the largest file. */
  const MAXENTRIES := 17152

  /** The k-th of many names. */
  function Nth(k: nat): (s: CString)
    requires k < 40000
    ensures 47 !in s
  {
    [97, 48 + k / 200, 48 + k % 200]
  }

  /** Entries for inode 2, under the names from the a-th on. */
  function Names(a: nat, n: nat): (es: seq<Dirent>)
    requires a + n < 40000
    ensures |es| == n && forall j :: 0 <= j < n ==> es[j] == Dirent(2, Pack(Nth(a + j)))
  {
    seq(n, j requires 0 <= j < n => Dirent(2, Pack(Nth(a + j))))
  }

  lemma NthName(k: nat)
    requires k < 40000
    ensures Unpack(Pack(Nth(k))) == Nth(k) && Nth(k) != DOT && Nth(k) != DOTDOT && Nth(k) != [100]
  {
    UnpackPack(Nth(k));
  }

  lemma NthDiffer(j: nat, k: nat)
    requires j < 40000 && k < 40000 && Nth(j) == Nth(k)
    ensures j == k
  {
    assert Nth(j)[1] == Nth(k)[1] && Nth(j)[2] == Nth(k)[2];
  }

  /** The first names go in the root, the others in directory 3. */
  const HALF := 16000

  function First(n: nat): nat {
    if n < HALF then n else HALF
  }

  function RootEntries(n: nat): (es: seq<Dirent>)
    requires n <= MAXLINK + 1
  {
    Dots(ROOT, ROOT) + [Dirent(3, Pack([100]))] + Names(0, First(n))
  }

  function OtherEntries(n: nat): (es: seq<Dirent>)
    requires n <= MAXLINK + 1
  {
    Dots(3, ROOT) + Names(HALF, n - First(n))
  }

  /** A file with n names. */
  ghost predicate Spread(t: Tree, n: nat)
    requires n <= MAXLINK + 1
  {
    && ROOT in t && t[ROOT] == Inode(Dir, 2, RootEntries(n))
    && 3 in t && t[3] == Inode(Dir, 1, OtherEntries(n))
    && 2 in t && t[2] == Inode(File, n, [])
  }

  lemma NewName(head: seq<Dirent>, a: nat, m: nat, k: nat)
    requires a + m < 40000 && k < 40000 && !(a <= k < a + m)
    requires forall j :: 0 <= j < |head| ==> Name(head[j]) in [DOT, DOTDOT, [100]]
    ensures forall j: nat :: !Says(head + Names(a, m), j, Nth(k))
  {
    NthName(k);
    var es := head + Names(a, m);
    forall j: nat | j < |es|
      ensures Name(es[j]) != Nth(k)
    {
      if j >= |head| {
        NthName(a + j - |head|);
        if Nth(a + j - |head|) == Nth(k) {
          NthDiffer(a + j - |head|, k);
        }
      }
    }
  }

  /** The directory for the next name. */
  function Where(n: nat): (d: nat) {
    if n < HALF then ROOT else 3
  }

  lemma NextVacant(t: Tree, n: nat)
    requires n <= MAXLINK && Spread(t, n)
    ensures Live(t, Where(n)) && Vacant(t, Where(n), |t[Where(n)].es|, Dirent(2, Pack(Nth(n))))
  {
    DotNames();
    UnpackPack([100]);
    NthName(n);
    if n < HALF {
      NewName(Dots(ROOT, ROOT) + [Dirent(3, Pack([100]))], 0, n, n);
    } else {
      NewName(Dots(3, ROOT), HALF, n - HALF, n);
    }
  }

  lemma SpreadNext(t: Tree, n: nat)
    requires n < MAXLINK && Spread(t, n)
    ensures Spread(Linked(t, 2, Where(n), |t[Where(n)].es|, Dirent(2, Pack(Nth(n)))), n + 1)
  {
    if n < HALF {
      assert Names(0, n + 1) == Names(0, n) + [Dirent(2, Pack(Nth(n)))];
    } else {
      assert Names(HALF, n + 1 - HALF) == Names(HALF, n - HALF) + [Dirent(2, Pack(Nth(n)))];
    }
  }

  /** After mkdir, and the ialloc of create; the first name is create's own. */
  lemma NoNames() returns (t: Tree, place: Places)
    ensures Ok(t, place) && Spread(t, 0)
  {
    hide Ok;
    var root := map[ROOT := Inode(Dir, 1, Dots(ROOT, ROOT))];
    var e := Dirent(3, Pack([100]));
    RootOk();
    DotNames();
    UnpackPack([100]);
    assert forall j: nat :: !Says(Dots(ROOT, ROOT), j, Name(e));
    CreateDirRight(root, map[], 3, ROOT, 2, e);
    var t1 := Adopted(Added(root, 3, Dir, Dots(3, ROOT)), 3, ROOT, 2, e);
    place := map[3 := (ROOT, 2)];
    assert map[][3 := (ROOT, 2)] == place;
    AddedOk(t1, place, 2, File, []);
    t := Added(t1, 2, File, []);
    assert Names(0, 0) == [] && Names(HALF, 0) == [];
  }

  /** mkdir, create, and then sys_link, until the file has n names. */
  lemma {:induction false} ManyNames(n: nat) returns (t: Tree, place: Places)
    requires 0 < n <= MAXLINK
    ensures Ok(t, place) && Spread(t, n)
    decreases n
  {
    hide Ok;
    hide Spread;
    hide Nth;
    if n == 1 {
      t, place := NoNames();
    } else {
      t, place := ManyNames(n - 1);
    }
    var dp, e := Where(n - 1), Dirent(2, Pack(Nth(n - 1)));
    NextVacant(t, n - 1);
    SpreadParts(t, n - 1);
    LinkedOk(t, place, 2, dp, |t[dp].es|, e);
    SpreadNext(t, n - 1);
    t := Linked(t, 2, dp, |t[dp].es|, e);
  }

  lemma SpreadParts(t: Tree, n: nat)
    requires n <= MAXLINK && Spread(t, n)
    ensures 2 in t && t[2] == Inode(File, n, []) && ROOT in t && 3 in t
    ensures |t[ROOT].es| < MAXENTRIES && |t[3].es| < MAXENTRIES
  {
  }

  /** A file with as many names as its count can hold: all is well, every directory
      fits in a file, and the next sys_link makes the count negative. After that
      sys_unlink of the new name panics. */
  lemma LinkOverflows() returns (t: Tree, place: Places, dp: nat, name: CString)
    ensures Ok(t, place) && Live(t, dp) && 2 in t && t[2].nlink == MAXLINK && 47 !in name
    ensures Vacant(t, dp, |t[dp].es|, Dirent(2, Pack(name)))
    ensures |t[ROOT].es| < MAXENTRIES && |t[dp].es| < MAXENTRIES
    ensures var t' := Stored(Linked(t, 2, dp, |t[dp].es|, Dirent(2, Pack(name))), 2);
            t'[2].nlink == -32768 && !Right(t') && UnlinkPanics(t', dp, name)
  {
    hide Ok;
    hide Spread;
    hide Nth;
    hide Right;
    t, place := ManyNames(MAXLINK);
    dp, name := Where(MAXLINK), Nth(MAXLINK);
    NextVacant(t, MAXLINK);
    SpreadParts(t, MAXLINK);
    LinkStored(t, place, 2, dp, |t[dp].es|, Dirent(2, Pack(name)));
    NthName(MAXLINK);
    NewPanics(t, dp, name);
  }

  /** The new name is of inode 2 alone. */
  lemma NewPanics(t: Tree, dp: nat, name: CString)
    requires Live(t, dp) && 2 in t && !t[2].kind.Dir? && t[2].nlink == MAXLINK
    requires Vacant(t, dp, |t[dp].es|, Dirent(2, Pack(name)))
    requires Unpack(Pack(name)) == name && Cut(name) == name && name != DOT && name != DOTDOT
    ensures UnlinkPanics(Stored(Linked(t, 2, dp, |t[dp].es|, Dirent(2, Pack(name))), 2), dp, name)
  {
    var t' := Stored(Linked(t, 2, dp, |t[dp].es|, Dirent(2, Pack(name))), 2);
    var es, k := t'[dp].es, |t[dp].es|;
    assert Says(es, k, name);
    forall j: nat | j < k
      ensures !Says(es, j, name)
    {
      assert es[j] == t[dp].es[j] && !Says(t[dp].es, j, Name(Dirent(2, Pack(name))));
    }
  }
}
