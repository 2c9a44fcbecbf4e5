/** Directories as sequences of entries (dirlookup, dirlink and namecmp in
    kernel/fs.c; isdirempty in kernel/sysfile.c): they hold a map from names,
    cut to DIRSIZ bytes, to inode numbers. Entries are 16 bytes and never cross
    a block, so reading or writing one is all or nothing. */
module Directory {
  import opened Base

  const DIRSIZ: nat := 14

  /** A C string without its final NUL. */
  type CString = s: seq<Byte> | forall i :: 0 <= i < |s| ==> s[i] != 0 witness []

  /** The name field: DIRSIZ bytes, padded with NULs if there is room. */
  type Field = f: seq<Byte> | |f| == DIRSIZ witness seq(DIRSIZ, _ => 0)

  datatype Dirent = Dirent(inum: nat, name: Field)

  /** A name as directories know it. */
  function Cut(s: CString): (r: CString) {
    if |s| <= DIRSIZ then s else s[..DIRSIZ]
  }

  /** strncpy(de.name, s, DIRSIZ) */
  function Pack(s: CString): (f: Field) {
    Cut(s) + seq(DIRSIZ - |Cut(s)|, _ => 0)
  }

  /** The bytes of a field before its first NUL. */
  function Unpack(f: seq<Byte>): (r: CString)
    ensures |r| <= |f| && r == f[..|r|] && (|r| < |f| ==> f[|r|] == 0)
  {
    if f == [] || f[0] == 0 then [] else [f[0]] + Unpack(f[1..])
  }

  /** Unpack stops at the first NUL. */
  lemma {:induction false} UnpackIs(f: seq<Byte>, n: nat)
    requires n <= |f| && (forall i :: 0 <= i < n ==> f[i] != 0) && (n < |f| ==> f[n] == 0)
    ensures Unpack(f) == f[..n]
  {
    if n > 0 {
      UnpackIs(f[1..], n - 1);
      assert f[..n] == [f[0]] + f[1..][..n - 1];
    }
  }

  /** Names that differ somewhere in the first DIRSIZ bytes are not the same. */
  lemma Differ(s: CString, f: Field, i: nat)
    requires i < DIRSIZ && i <= |s| && s[..i] == f[..i] && (if i < |s| then s[i] else 0) != f[i]
    ensures Cut(s) != Unpack(f)
  {
    var r := Unpack(f);
    if i < |s| && i < |r| {
      assert r[i] == f[i] && Cut(s)[i] == s[i];
    }
  }

  lemma UnpackPack(s: CString)
    ensures Unpack(Pack(s)) == Cut(s)
  {
    UnpackIs(Pack(s), |Cut(s)|);
  }

  /** namecmp, that is strncmp over DIRSIZ bytes: equal means the same name. */
  method Namecmp(s: CString, f: Field) returns (same: bool)
    ensures same <==> Cut(s) == Unpack(f)
  {
    var i := 0;
    while i < DIRSIZ && i < |s| && s[i] == f[i]
      invariant 0 <= i <= DIRSIZ && i <= |s| && s[..i] == f[..i]
    {
      i := i + 1;
    }
    if i == DIRSIZ {
      UnpackIs(f, i);
      return true;
    }
    same := (if i < |s| then s[i] else 0) == f[i];
    if same {
      UnpackIs(f, i);
    } else {
      Differ(s, f, i);
    }
  }

  function Name(e: Dirent): (s: CString) {
    Unpack(e.name)
  }

  /** No name is used by two entries. */
  ghost predicate NoDup(es: seq<Dirent>) {
    forall i, j :: 0 <= i < j < |es| && es[i].inum != 0 && es[j].inum != 0 ==> Name(es[i]) != Name(es[j])
  }

  /** Entry k says that `name` is inode `inum`. */
  ghost predicate Says(es: seq<Dirent>, k: nat, name: CString) {
    k < |es| && es[k].inum != 0 && Name(es[k]) == name
  }

  /** The entries stand for the map m. */
  ghost predicate Denotes(es: seq<Dirent>, m: map<CString, nat>) {
    && NoDup(es)
    && (forall k: nat :: k < |es| && es[k].inum != 0 ==> Name(es[k]) in m && m[Name(es[k])] == es[k].inum)
    && (forall name :: name in m ==> exists k: nat :: Says(es, k, name))
  }

  /** dirlookup: the place of the entry for a name. */
  method Dirlookup(es: seq<Dirent>, name: CString) returns (k: Option<nat>)
    ensures k.Some? ==> Says(es, k.value, Cut(name))
    ensures k.None? ==> forall j: nat :: !Says(es, j, Cut(name))
    ensures forall m :: Denotes(es, m) ==>
              if k.None? then Cut(name) !in m else Cut(name) in m && m[Cut(name)] == es[k.value].inum
  {
    hide Denotes;
    hide Cut;
    hide Unpack;
    var off := 0;
    while off < |es|
      invariant 0 <= off <= |es| && forall j: nat :: j < off ==> !Says(es, j, Cut(name))
    {
      if es[off].inum != 0 {
        var same := Namecmp(name, es[off].name);
        if same {
          Found(es, Cut(name), off);
          return Some(off);
        }
      }
      off := off + 1;
    }
    NotFound(es, Cut(name));
    k := None;
  }

  lemma Found(es: seq<Dirent>, name: CString, k: nat)
    requires Says(es, k, name)
    ensures forall m :: Denotes(es, m) ==> name in m && m[name] == es[k].inum
  {
    hide Unpack;
  }

  lemma NotFound(es: seq<Dirent>, name: CString)
    requires forall j: nat :: !Says(es, j, name)
    ensures forall m :: Denotes(es, m) ==> name !in m
  {
    hide Unpack;
  }

  /** Where dirlink puts a new entry: the first empty one, or the end. */
  method EmptySlot(es: seq<Dirent>) returns (k: nat)
    ensures k <= |es| && (k < |es| ==> es[k].inum == 0) && forall j :: 0 <= j < k ==> es[j].inum != 0
  {
    k := 0;
    while k < |es| && es[k].inum != 0
      invariant 0 <= k <= |es| && forall j :: 0 <= j < k ==> es[j].inum != 0
    {
      k := k + 1;
    }
  }

  function Put(es: seq<Dirent>, k: nat, e: Dirent): (r: seq<Dirent>)
    requires k <= |es|
  {
    if k < |es| then es[k := e] else es + [e]
  }

  lemma PutDenotes(es: seq<Dirent>, k: nat, e: Dirent, m: map<CString, nat>)
    requires Denotes(es, m) && k <= |es| && (k < |es| ==> es[k].inum == 0) && e.inum != 0 && Name(e) !in m
    ensures Denotes(Put(es, k, e), m[Name(e) := e.inum])
  {
    var r, m' := Put(es, k, e), m[Name(e) := e.inum];
    forall name | name in m'
      ensures exists j: nat :: Says(r, j, name)
    {
      if name == Name(e) {
        assert Says(r, k, name);
      } else {
        var j: nat :| Says(es, j, name);
        assert Says(r, j, name);
      }
    }
  }

  /** No entry is empty. */
  predicate Full(es: seq<Dirent>) {
    forall j :: 0 <= j < |es| ==> es[j].inum != 0
  }

  /** dirlink: the name is added, unless it is there or there is no room for one
      more entry at the end. */
  method Dirlink(es: seq<Dirent>, name: CString, inum: nat, room: bool) returns (ok: bool, r: seq<Dirent>, k: nat)
    requires inum != 0
    ensures ok <==> (forall j: nat :: !Says(es, j, Cut(name))) && (room || !Full(es))
    ensures !ok ==> r == es
    ensures ok ==>
              && k <= |es| && (k < |es| ==> es[k].inum == 0) && r == Put(es, k, Dirent(inum, Pack(name)))
              && (forall j: nat :: !Says(es, j, Cut(name)))
              && forall m :: Denotes(es, m) ==> Cut(name) !in m && Denotes(r, m[Cut(name) := inum])
  {
    UnpackPack(name);
    var found := Dirlookup(es, name);
    if found.Some? {
      return false, es, 0;
    }
    k := EmptySlot(es);
    if k == |es| && !room {
      return false, es, 0;
    }
    assert k < |es| ==> es[k].inum == 0;
    ok, r := true, Put(es, k, Dirent(inum, Pack(name)));
    forall m | Denotes(es, m)
      ensures Cut(name) !in m && Denotes(r, m[Cut(name) := inum])
    {
      PutDenotes(es, k, Dirent(inum, Pack(name)), m);
    }
  }

  /** An empty entry. */
  function Blank(): (e: Dirent)
    ensures e.inum == 0
  {
    Dirent(0, seq(DIRSIZ, _ => 0))
  }

  /** Clearing an entry removes its name. */
  lemma EraseDenotes(es: seq<Dirent>, k: nat, m: map<CString, nat>)
    requires Denotes(es, m) && k < |es| && es[k].inum != 0
    ensures Denotes(es[k := Blank()], m - {Name(es[k])})
  {
    var r, m' := es[k := Blank()], m - {Name(es[k])};
    forall name | name in m'
      ensures exists j: nat :: Says(r, j, name)
    {
      var j: nat :| Says(es, j, name);
      assert Says(r, j, name);
    }
  }

  /** isdirempty: no entry after the first two. */
  method IsDirEmpty(es: seq<Dirent>) returns (empty: bool)
    ensures empty <==> forall k :: 2 <= k < |es| ==> es[k].inum == 0
  {
    var k := 2;
    while k < |es|
      invariant 2 <= k && forall j :: 2 <= j < k && j < |es| ==> es[j].inum == 0
    {
      if es[k].inum != 0 {
        return false;
      }
      k := k + 1;
    }
    empty := true;
  }
}
