/** What several modules share. */
module Base {
  datatype Option<T> = None | Some(value: T)

  type Byte = x: int | 0 <= x < 256

  // kernel/param.h
  const MAXOPBLOCKS := 10
  const LOGBLOCKS := MAXOPBLOCKS * 3
  const NBUF := MAXOPBLOCKS * 3

  lemma SubsetCount(a: set<nat>, b: set<nat>)
    requires a <= b
    ensures |a| <= |b| && |b - a| == |b| - |a|
  {
    assert b == a + (b - a);
  }

  /** The n numbers from lo on. */
  ghost function Interval(lo: nat, n: nat): (r: set<nat>)
    ensures |r| == n && forall x: nat :: x in r <==> lo <= x < lo + n
  {
    if n == 0 then {} else Interval(lo, n - 1) + {lo + n - 1}
  }

  /** memmove of some bytes into others. */
  function Splice(b: seq<Byte>, at: nat, s: seq<Byte>): (r: seq<Byte>)
    requires at + |s| <= |b|
    ensures |r| == |b|
  {
    b[..at] + s + b[at + |s|..]
  }
}
