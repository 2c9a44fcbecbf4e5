/** Pipes (kernel/pipe.c). A turn is what a thread does from taking the pipe's
    lock, first or after a sleep, until it sleeps or returns; turns of any
    threads follow each other in any order. */
module Pipe {
  import opened Base

  type Thread = nat

  const PIPESIZE: nat := 512
  /** Counters are 32 bits wide. */
  const WRAP: nat := 0x1_0000_0000

  /** How a turn ends. */
  datatype Turn = Sleeps | Returns(n: int)

  /** The ring holds q from counter `from` on. */
  ghost predicate RingOk(data: seq<Byte>, from: nat, q: seq<Byte>) {
    && |data| == PIPESIZE && |q| <= PIPESIZE
    && forall k :: 0 <= k < |q| ==> data[(from + k) % PIPESIZE] == q[k]
  }

  lemma Place(from: nat, n: nat)
    ensures (from + n) % WRAP % PIPESIZE == (from + n) % PIPESIZE
  {
  }

  lemma Apart(from: nat, k: nat, n: nat)
    requires k < n < PIPESIZE
    ensures (from + k) % PIPESIZE != (from + n) % PIPESIZE
  {
  }

  lemma Push(data: seq<Byte>, from: nat, q: seq<Byte>, c: Byte)
    requires RingOk(data, from, q) && |q| < PIPESIZE
    ensures RingOk(data[(from + |q|) % PIPESIZE := c], from, q + [c])
  {
    forall k | 0 <= k < |q|
      ensures data[(from + |q|) % PIPESIZE := c][(from + k) % PIPESIZE] == q[k]
    {
      Apart(from, k, |q|);
    }
  }

  lemma Pop(data: seq<Byte>, from: nat, q: seq<Byte>)
    requires RingOk(data, from, q) && q != [] && from < WRAP
    ensures data[from % PIPESIZE] == q[0] && RingOk(data, (from + 1) % WRAP, q[1..])
  {
    assert data[(from + 0) % PIPESIZE] == q[0];
    forall k | 0 <= k < |q[1..]|
      ensures data[((from + 1) % WRAP + k) % PIPESIZE] == q[1..][k]
    {
      Later(from, k);
      assert data[(from + (k + 1)) % PIPESIZE] == q[k + 1];
    }
  }

  lemma Later(from: nat, k: nat)
    requires from < WRAP
    ensures ((from + 1) % WRAP + k) % PIPESIZE == (from + (k + 1)) % PIPESIZE
  {
  }

  /** Counters agree with the number of bytes between them. */
  lemma Counters(from: nat, n: nat)
    requires from < WRAP && n <= PIPESIZE
    ensures (from + n) % WRAP == from <==> n == 0
    ensures (from + n) % WRAP == (from + PIPESIZE) % WRAP <==> n == PIPESIZE
  {
  }

  class Pipe {
    var data: seq<Byte>
    var nread: nat
    var nwrite: nat
    var readopen: bool
    var writeopen: bool
    /** Threads asleep on &nread and on &nwrite. */
    var readers: set<Thread>
    var writers: set<Thread>
    /** Every byte ever written and read. */
    ghost var sent: seq<Byte>
    ghost var received: seq<Byte>
    ghost var pending: seq<Byte>
    /** How often the pipe's page was freed. */
    ghost var frees: nat

    /** Bytes come out in the order they went in. */
    ghost predicate Fifo()
      reads this`data, this`nread, this`nwrite, this`sent, this`received, this`pending
    {
      && nread < WRAP && nwrite == (nread + |pending|) % WRAP && RingOk(data, nread, pending)
      && sent == received + pending
    }

    /** Who sleeps has reason to. */
    ghost predicate Sleepers()
      reads this`readers, this`writers, this`pending, this`readopen, this`writeopen
    {
      && (readers != {} ==> pending == [] && writeopen)
      && (writers != {} ==> |pending| == PIPESIZE && readopen)
    }

    /** The page is freed once, when both ends are closed. */
    ghost predicate Freed()
      reads this`frees, this`readopen, this`writeopen
    {
      frees == if readopen || writeopen then 0 else 1
    }

    /** pipealloc */
    constructor ()
      ensures Fifo() && Sleepers() && Freed() && sent == [] && readopen && writeopen && readers == {} && writers == {}
    {
      data, nread, nwrite := seq(PIPESIZE, _ => 0), 0, 0;
      readopen, writeopen, readers, writers := true, true, {}, {};
      sent, received, pending, frees := [], [], [], 0;
    }

    /** The counters tell when the pipe is empty and when it is full. */
    lemma Level()
      requires Fifo()
      ensures nread == nwrite <==> pending == []
      ensures nwrite == (nread + PIPESIZE) % WRAP <==> |pending| == PIPESIZE
      ensures |pending| <= PIPESIZE
    {
      Counters(nread, |pending|);
    }

    /** One byte goes in. */
    method Put(c: Byte)
      requires Fifo() && |pending| < PIPESIZE
      modifies this`data, this`nwrite, this`sent, this`pending
      ensures Fifo() && pending == old(pending) + [c] && sent == old(sent) + [c]
    {
      Push(data, nread, pending, c);
      Place(nread, |pending|);
      data := data[nwrite % PIPESIZE := c];
      nwrite := (nwrite + 1) % WRAP;
      pending := pending + [c];
      sent := sent + [c];
    }

    method Get() returns (c: Byte)
      requires Fifo() && pending != []
      modifies this`nread, this`received, this`pending
      ensures Fifo() && c == old(pending)[0] && pending == old(pending)[1..] && received == old(received) + [c]
    {
      Pop(data, nread, pending);
      c := data[nread % PIPESIZE];
      nread := (nread + 1) % WRAP;
      received := received + [c];
      pending := pending[1..];
    }

    /** A writer that starts at byte i of n, with an empty pipe, is found killed
        with some of them written and no reader told. */
    static predicate GivesUp(n: nat, i: nat, fault: Option<nat>, killed: Option<nat>) {
      && killed.Some? && i < killed.value < n && killed.value - i <= PIPESIZE
      && !(fault.Some? && i <= fault.value < killed.value)
    }

    /** A turn of pipewrite by t, which has written the first i bytes. `fault` is
        the first byte that copyin fails on, and `killed` says after how many
        bytes of this call the writer is found killed, if at all. A reader is left
        asleep over bytes to read exactly when one was asleep and the writer is
        killed after a byte of this turn, by the time the pipe is full and before
        the source faults or the bytes are all written. */
    method WriteTurn(t: Thread, bytes: seq<Byte>, i: nat, fault: Option<nat>, killed: Option<nat>)
        returns (end: Turn, i': nat)
      requires Fifo() && i <= |bytes|
      modifies this`data, this`nwrite, this`sent, this`pending, this`readers, this`writers
      ensures Fifo() && i <= i' <= |bytes| && sent == old(sent) + bytes[i..i'] && pending == old(pending) + bytes[i..i']
      ensures end.Sleeps? ==> i' < |bytes| && |pending| == PIPESIZE && readopen && readers == {}
                              && writers == old(writers) + {t}
      ensures end.Returns? ==> writers == old(writers) && (end.n == i' || end.n == -1)
      ensures end == Returns(i') ==> readers == {} && (i' == |bytes| || fault == Some(i'))
      ensures end == Returns(-1) ==>
                readers == old(readers) && i' < |bytes| && (!readopen || (killed.Some? && killed.value <= i'))
      ensures end == Returns(-1) && i' > i ==> killed.Some?
      ensures old(Sleepers()) ==>
                (Sleepers() <==> !(old(readers) != {} && readopen && GivesUp(|bytes|, i, fault, killed)))
    {
      hide Fifo;
      Level();
      i' := i;
      assert bytes[i..i'] == [];
      while i' < |bytes|
        invariant i <= i' <= |bytes| && Fifo() && readers == old(readers) && writers == old(writers)
        invariant sent == old(sent) + bytes[i..i'] && pending == old(pending) + bytes[i..i']
        invariant i' > i ==> readopen && |old(pending)| < PIPESIZE
        invariant |pending| <= PIPESIZE
        invariant !(fault.Some? && i <= fault.value < i') && !(killed.Some? && i <= killed.value < i')
        invariant i' > i && killed.Some? ==> i < killed.value
      {
        if !readopen || (killed.Some? && killed.value <= i') {
          return Returns(-1), i';
        }
        Level();
        if nwrite == (nread + PIPESIZE) % WRAP {
          readers := {};
          writers := writers + {t};
          return Sleeps, i';
        }
        if fault == Some(i') {
          break;
        }
        Put(bytes[i']);
        assert bytes[i..i' + 1] == bytes[i..i'] + [bytes[i']];
        i' := i' + 1;
      }
      readers := {};
      end := Returns(i');
    }

    /** piperead's copy loop. */
    method Drain(n: int, fault: Option<nat>) returns (i: int, out: seq<Byte>)
      requires Fifo()
      modifies this`nread, this`received, this`pending
      ensures Fifo() && received == old(received) + out && old(pending) == out + pending && (n >= 0 ==> |out| <= n)
      ensures |out| == |old(pending)| || |out| >= n || fault == Some(|out|)
      ensures i == if out == [] && 0 < n && old(pending) != [] then -1 else |out|
    {
      hide Fifo;
      i, out := 0, [];
      while i < n
        invariant 0 <= i && |out| == i && (n >= 0 ==> i <= n) && Fifo()
        invariant received == old(received) + out && old(pending) == out + pending
      {
        Level();
        if nread == nwrite {
          break;
        }
        if fault == Some(i) {
          if i == 0 {
            i := -1;
          }
          break;
        }
        var c := Get();
        out := out + [c];
        i := i + 1;
      }
    }

    /** A turn of piperead by t. */
    method ReadTurn(t: Thread, n: int, fault: Option<nat>, killed: bool) returns (end: Turn, out: seq<Byte>)
      requires Fifo()
      modifies this`nread, this`received, this`pending, this`readers, this`writers
      ensures Fifo() && received == old(received) + out && old(pending) == out + pending
      ensures old(Sleepers()) ==> Sleepers()
      ensures end.Sleeps? <==> old(pending) == [] && writeopen && !killed
      ensures end.Sleeps? ==> out == [] && readers == old(readers) + {t} && writers == old(writers)
      ensures old(pending) == [] && writeopen && killed ==> end == Returns(-1) && out == []
      ensures !(old(pending) == [] && writeopen) ==>
                && readers == old(readers) && writers == {}
                && (|out| == |old(pending)| || |out| >= n || fault == Some(|out|)) && (n >= 0 ==> |out| <= n)
                && end == Returns(if out == [] && 0 < n && old(pending) != [] then -1 else |out|)
    {
      out := [];
      Level();
      if nread == nwrite && writeopen {
        if killed {
          return Returns(-1), [];
        }
        readers := readers + {t};
        return Sleeps, [];
      }
      var i;
      i, out := Drain(n, fault);
      writers := {};
      end := Returns(i);
    }

    /** pipeclose of one open end. */
    method Close(writable: bool)
      requires Fifo() && Freed() && (if writable then writeopen else readopen)
      modifies this`readopen, this`writeopen, this`readers, this`writers, this`frees
      ensures Fifo() && Freed() && (old(Sleepers()) ==> Sleepers())
      ensures writable ==> !writeopen && readopen == old(readopen) && readers == {} && writers == old(writers)
      ensures !writable ==> !readopen && writeopen == old(writeopen) && writers == {} && readers == old(readers)
    {
      if writable {
        writeopen := false;
        readers := {};
      } else {
        readopen := false;
        writers := {};
      }
      if !readopen && !writeopen {
        frees := frees + 1;
      }
    }

    /** What has been read is the beginning of what has been written, with no more
        than PIPESIZE bytes between, and readers and writers never sleep at once. */
    lemma InOrder()
      requires Fifo()
      ensures received <= sent && |sent| - |received| <= PIPESIZE
      ensures Sleepers() ==> readers == {} || writers == {}
    {
    }
  }

  /** A reader sleeps on a new pipe, and a writer of two bytes is killed after the
      first: the reader stays asleep over that byte. */
  method KilledWriter() returns (p: Pipe, end: Turn, written: nat)
    ensures fresh(p) && p.Fifo() && p.readopen && p.writeopen
    ensures end == Returns(-1) && written == 1 && p.pending == [7] && p.readers == {0} && !p.Sleepers()
  {
    p := new Pipe();
    var asleep, out := p.ReadTurn(0, 1, None, false);
    assert p.pending == [] && p.readers == {0};
    end, written := p.WriteTurn(1, [7, 8], 0, None, Some(1));
    assert Pipe.GivesUp(2, 0, None, Some(1));
    assert written == 1;
    assert [7, 8][0..1] == [7];
  }
}
