/** The driver of kernel/virtio_disk.c and the device on the other side of its
    split virtqueue. A method is what one side does in one go: the driver under
    vdisk_lock, the device whenever it likes and in any order. */
module Virtio {
  import opened Base
  import opened Blocks

  const NUM: nat := 8
  /** Ring indices are 16 bits wide. */
  const WRAP: nat := 65536

  /** What a descriptor points to. */
  datatype Addr = Null | Command(i: nat) | Data(b: nat) | Status(i: nat)

  /** struct virtq_desc: the two flags the driver uses, and `next`. */
  datatype Desc = Desc(addr: Addr, chained: bool, deviceWrites: bool, next: nat)

  /** struct virtio_blk_req */
  datatype Op = Op(write: bool, sector: nat)

  datatype Phase = Posted | Working | Used | Seen

  /** A request: the other two descriptors of its chain, its buffer, how far it
      is, and the status that the device has given it, 255 before it has. */
  datatype Req = Req(d1: nat, d2: nat, b: nat, write: bool, block: nat, phase: Phase, status: nat)

  const FreeDesc := Desc(Null, false, false, 0)

  predicate InChain(h: nat, r: Req, i: nat) {
    i == h || i == r.d1 || i == r.d2
  }

  /** What driver and device share: descriptors, command headers, info[] and
      the buffers' disk flags. */
  datatype Memory = Memory(desc: seq<Desc>, ops: seq<Op>, info: seq<Option<nat>>, status: seq<nat>,
                           busy: map<nat, bool>) {
    predicate Sized() {
      |desc| == NUM && |ops| == NUM && |info| == NUM && |status| == NUM
    }
  }

  /** The three descriptors of a request, as the device will read them. */
  predicate ChainOk(m: Memory, h: nat, r: Req)
    requires m.Sized()
  {
    && h < NUM && r.d1 < NUM && r.d2 < NUM && h != r.d1 && h != r.d2 && r.d1 != r.d2
    && m.desc[h] == Desc(Command(h), true, false, r.d1)
    && m.desc[r.d1] == Desc(Data(r.b), true, !r.write, r.d2)
    && m.desc[r.d2] == Desc(Status(h), false, true, 0)
    && m.ops[h] == Op(r.write, r.block * 2)
  }

  /** What virtio_disk_intr will find for it. */
  ghost predicate InfoOk(m: Memory, h: nat, r: Req)
    requires m.Sized()
  {
    && h < NUM && m.info[h] == Some(r.b) && m.status[h] == r.status
    && (r.phase.Seen? ==> r.status == 0)
    && r.b in m.busy && m.busy[r.b] == !r.phase.Seen?
  }

  /** What virtio_disk_intr makes of a request. */
  ghost function Noticed(r: Req): (r': Req) {
    if r.phase == Phase.Used then r.(phase := Seen) else r
  }

  lemma NoticedIs(reqs: map<nat, Req>)
    ensures forall h :: h in reqs && reqs[h].phase == Phase.Used ==> Noticed(reqs[h]) == reqs[h].(phase := Seen)
    ensures forall h :: h in reqs && reqs[h].phase != Phase.Used ==> Noticed(reqs[h]) == reqs[h]
  {
  }

  /** Every request is laid out, and no two use one buffer. */
  ghost predicate ReqsOk(m: Memory, reqs: map<nat, Req>) {
    && m.Sized()
    && (forall h :: h in reqs ==> ChainOk(m, h, reqs[h]) && InfoOk(m, h, reqs[h]))
    && (forall g, h :: g in reqs && h in reqs && g != h ==> reqs[g].b != reqs[h].b)
  }

  /** free[] is the complement of the chains, and no descriptor is in two. */
  ghost predicate OwnOk(free: seq<bool>, own: map<nat, nat>, reqs: map<nat, Req>) {
    && |free| == NUM
    && (forall i :: 0 <= i < NUM ==> (free[i] <==> i !in own))
    && (forall i :: i in own ==> OwnAt(own, reqs, i))
    && (forall h :: h in reqs ==> Owns(own, h, reqs[h]))
  }

  ghost predicate OwnAt(own: map<nat, nat>, reqs: map<nat, Req>, i: nat)
    requires i in own
  {
    i < NUM && own[i] in reqs && InChain(own[i], reqs[own[i]], i)
  }

  ghost predicate Owns(own: map<nat, nat>, h: nat, r: Req) {
    && h != r.d1 && h != r.d2 && r.d1 != r.d2
    && h in own && own[h] == h && r.d1 in own && own[r.d1] == h && r.d2 in own && own[r.d2] == h
  }

  /** The ring holds q from index `from` up to index `to`. */
  ghost predicate RingOk(ring: seq<nat>, from: nat, to: nat, q: seq<nat>) {
    && |ring| == NUM && |q| <= NUM && from < WRAP && to == (from + |q|) % WRAP
    && forall k :: 0 <= k < |q| ==> ring[(from + k) % NUM] == q[k]
  }

  /** q lists the requests of one phase, each once. */
  ghost predicate QueueOk(q: seq<nat>, reqs: map<nat, Req>, phase: Phase) {
    && (forall i, j :: 0 <= i < j < |q| ==> q[i] != q[j])
    && (forall h :: h in q ==> h in reqs && reqs[h].phase == phase)
    && (forall h :: h in reqs && reqs[h].phase == phase ==> h in q)
  }

  lemma Slot(from: nat, n: nat)
    requires from < WRAP
    ensures (from + n) % WRAP % NUM == (from + n) % NUM
  {
  }

  /** Adding at the end of a ring that is not full disturbs no entry, also when
      an index wraps around. */
  lemma Push(ring: seq<nat>, from: nat, to: nat, q: seq<nat>, h: nat)
    requires RingOk(ring, from, to, q) && |q| < NUM
    ensures to % NUM < |ring| && RingOk(ring[to % NUM := h], from, (to + 1) % WRAP, q + [h])
  {
    Slot(from, |q|);
    var ring' := ring[to % NUM := h];
    assert (to + 1) % WRAP == (from + |q| + 1) % WRAP;
    forall k | 0 <= k < |q|
      ensures ring'[(from + k) % NUM] == q[k]
    {
      OtherSlot(from, k, |q|);
    }
  }

  lemma OtherSlot(from: nat, k: nat, n: nat)
    requires k < n < NUM
    ensures (from + k) % NUM != (from + n) % NUM
  {
  }

  lemma Pop(ring: seq<nat>, from: nat, to: nat, q: seq<nat>)
    requires RingOk(ring, from, to, q) && q != []
    ensures ring[from % NUM] == q[0] && from != to
    ensures RingOk(ring, (from + 1) % WRAP, to, q[1..])
  {
    var from' := (from + 1) % WRAP;
    assert to == (from' + |q[1..]|) % WRAP;
    forall k | 0 <= k < |q[1..]|
      ensures ring[(from' + k) % NUM] == q[1..][k]
    {
      NextSlot(from, k);
      assert ring[(from + (k + 1)) % NUM] == q[k + 1];
    }
    assert ring[(from + 0) % NUM] == q[0];
  }

  lemma NextSlot(from: nat, k: nat)
    requires from < WRAP
    ensures ((from + 1) % WRAP + k) % NUM == (from + (k + 1)) % NUM
  {
  }

  /** The number of free descriptors. */
  function Count(free: seq<bool>): (n: nat) {
    if free == [] then 0 else Count(free[..|free| - 1]) + if free[|free| - 1] then 1 else 0
  }

  lemma {:induction false} CountTaken(free: seq<bool>, i: nat)
    requires i < |free| && free[i]
    ensures Count(free) == Count(free[i := false]) + 1
  {
    var last := |free| - 1;
    if i < last {
      CountTaken(free[..last], i);
      assert free[i := false][..last] == free[..last][i := false];
    } else {
      assert free[i := false][..last] == free[..last];
    }
  }

  lemma {:induction false} CountNone(free: seq<bool>)
    requires forall i :: 0 <= i < |free| ==> !free[i]
    ensures Count(free) == 0
  {
    if free != [] {
      CountNone(free[..|free| - 1]);
    }
  }

  ghost predicate Buffered(reqs: map<nat, Req>, bufs: map<nat, Block>, store: map<nat, Block>) {
    forall h :: h in reqs ==> reqs[h].b in bufs && reqs[h].block in store
  }

  /** No request is using buffer b. */
  ghost predicate Idle(reqs: map<nat, Req>, b: nat) {
    forall g :: g in reqs ==> reqs[g].b != b
  }

  /** free[] with three entries set. */
  function Marked(free: seq<bool>, h: nat, d1: nat, d2: nat, v: bool): (r: seq<bool>)
    requires |free| == NUM && h < NUM && d1 < NUM && d2 < NUM
    ensures |r| == NUM && forall i :: 0 <= i < NUM ==> r[i] == if i == h || i == d1 || i == d2 then v else free[i]
  {
    free[h := v][d1 := v][d2 := v]
  }

  ghost function Claimed(own: map<nat, nat>, h: nat, r: Req): (own': map<nat, nat>) {
    own[h := h][r.d1 := h][r.d2 := h]
  }

  lemma ClaimedAt(own: map<nat, nat>, h: nat, r: Req, i: nat)
    ensures i in Claimed(own, h, r) <==> i in own || InChain(h, r, i)
    ensures i in Claimed(own, h, r) ==> Claimed(own, h, r)[i] == if InChain(h, r, i) then h else own[i]
  {
  }

  /** Requests keep what they own when a new one claims free descriptors, */
  lemma OwnsStill(free: seq<bool>, own: map<nat, nat>, g: nat, q: Req, h: nat, r: Req)
    requires |free| == NUM && (forall i :: 0 <= i < NUM ==> (free[i] <==> i !in own)) && Owns(own, g, q)
    requires h < NUM && r.d1 < NUM && r.d2 < NUM && free[h] && free[r.d1] && free[r.d2]
    ensures Clear(g, q, h, r) && Owns(Claimed(own, h, r), g, q)
  {
    hide Claimed;
    ClaimedAt(own, h, r, g);
    ClaimedAt(own, h, r, q.d1);
    ClaimedAt(own, h, r, q.d2);
  }

  /** and every owner is in use. */
  lemma OwnAtStill(own: map<nat, nat>, reqs: map<nat, Req>, h: nat, r: Req, i: nat)
    requires h !in reqs && h < NUM && r.d1 < NUM && r.d2 < NUM && i in Claimed(own, h, r)
             && (i in own ==> OwnAt(own, reqs, i))
    ensures OwnAt(Claimed(own, h, r), reqs[h := r], i)
  {
    hide Claimed;
    ClaimedAt(own, h, r, i);
  }

  /** A new request owns three descriptors that were free. */
  lemma OwnMore(free: seq<bool>, own: map<nat, nat>, reqs: map<nat, Req>, h: nat, r: Req)
    requires OwnOk(free, own, reqs) && h < NUM && r.d1 < NUM && r.d2 < NUM && h != r.d1 && h != r.d2 && r.d1 != r.d2
    requires free[h] && free[r.d1] && free[r.d2]
    ensures h !in reqs && (forall g :: g in reqs ==> Clear(g, reqs[g], h, r))
    ensures OwnOk(Marked(free, h, r.d1, r.d2, false), Claimed(own, h, r), reqs[h := r])
  {
    hide Claimed;
    hide OwnAt;
    var own', reqs' := Claimed(own, h, r), reqs[h := r];
    assert h in reqs ==> Owns(own, h, reqs[h]);
    forall g | g in reqs
      ensures Clear(g, reqs[g], h, r) && Owns(own', g, reqs[g])
    {
      OwnsStill(free, own, g, reqs[g], h, r);
    }
    forall i | i in own'
      ensures OwnAt(own', reqs', i)
    {
      OwnAtStill(own, reqs, h, r, i);
    }
    ClaimedAt(own, h, r, h);
    ClaimedAt(own, h, r, r.d1);
    ClaimedAt(own, h, r, r.d2);
    hide Clear;
    forall i: nat
      ensures i in own' <==> i in own || InChain(h, r, i)
    {
      ClaimedAt(own, h, r, i);
    }
  }

  /** Two chains with no descriptor in common. */
  predicate Clear(g: nat, q: Req, h: nat, r: Req) {
    !InChain(g, q, h) && !InChain(g, q, r.d1) && !InChain(g, q, r.d2)
  }

  /** A change of phase or status moves no descriptor. */
  lemma OwnSame(free: seq<bool>, own: map<nat, nat>, reqs: map<nat, Req>, h: nat, phase: Phase, status: nat)
    requires OwnOk(free, own, reqs) && h in reqs
    ensures OwnOk(free, own, reqs[h := reqs[h].(phase := phase, status := status)])
  {
  }

  lemma OwnLess(free: seq<bool>, own: map<nat, nat>, reqs: map<nat, Req>, h: nat)
    requires OwnOk(free, own, reqs) && h in reqs && h < NUM && reqs[h].d1 < NUM && reqs[h].d2 < NUM
    ensures forall g :: g in reqs && g != h ==> Clear(g, reqs[g], h, reqs[h])
    ensures OwnOk(Marked(free, h, reqs[h].d1, reqs[h].d2, true), own - {h, reqs[h].d1, reqs[h].d2}, reqs - {h})
  {
    var r := reqs[h];
    assert Owns(own, h, r);
    forall g | g in reqs && g != h
      ensures Clear(g, reqs[g], h, r) && Owns(own - {h, r.d1, r.d2}, g, reqs[g])
    {
      assert Owns(own, g, reqs[g]);
    }
  }

  /** A list of different descriptors that misses one is not full. */
  lemma NotFull(q: seq<nat>, h: nat)
    requires (forall i, j :: 0 <= i < j < |q| ==> q[i] != q[j]) && (forall x :: x in q ==> x < NUM) && h < NUM
             && h !in q
    ensures |q| < NUM
  {
    Pigeons(q + [h], NUM);
  }

  lemma {:induction false} Pigeons(q: seq<nat>, n: nat)
    requires (forall i, j :: 0 <= i < j < |q| ==> q[i] != q[j]) && forall x :: x in q ==> x < n
    ensures |q| <= n
    decreases n
  {
    if q == [] {
    } else {
      assert q[0] in q;
      if n - 1 in q {
        var k :| 0 <= k < |q| && q[k] == n - 1;
        var rest := q[..k] + q[k + 1..];
        forall x | x in rest
          ensures x < n - 1
        {
          assert x in q;
        }
        Pigeons(rest, n - 1);
      } else {
        Pigeons(q, n - 1);
      }
    }
  }

  /** Requests move from one phase's list to the next. */
  lemma QueueAdd(q: seq<nat>, reqs: map<nat, Req>, phase: Phase, h: nat, r: Req)
    requires QueueOk(q, reqs, phase) && r.phase == phase && (h in reqs ==> reqs[h].phase != phase)
    ensures h !in q && QueueOk(q + [h], reqs[h := r], phase)
  {
  }

  lemma QueueKeep(q: seq<nat>, reqs: map<nat, Req>, phase: Phase, h: nat, r: Req)
    requires QueueOk(q, reqs, phase) && r.phase != phase && (h in reqs ==> reqs[h].phase != phase)
    ensures QueueOk(q, reqs[h := r], phase)
  {
  }

  lemma QueueDrop(q: seq<nat>, reqs: map<nat, Req>, phase: Phase, r: Req)
    requires QueueOk(q, reqs, phase) && q != [] && r.phase != phase
    ensures QueueOk(q[1..], reqs[q[0] := r], phase)
  {
    forall h | h in q[1..]
      ensures h != q[0]
    {
    }
  }

  lemma QueueLess(q: seq<nat>, reqs: map<nat, Req>, phase: Phase, h: nat)
    requires QueueOk(q, reqs, phase) && h in reqs && reqs[h].phase != phase
    ensures QueueOk(q, reqs - {h}, phase)
  {
  }

  lemma NotEmpty(ring: seq<nat>, from: nat, to: nat, q: seq<nat>)
    requires RingOk(ring, from, to, q)
    ensures q != [] <==> from != to
  {
  }

  /** The chain that virtio_disk_rw builds. */
  function Built(m: Memory, h: nat, r: Req): (m': Memory)
    requires m.Sized() && h < NUM && r.d1 < NUM && r.d2 < NUM
  {
    Memory(m.desc[h := Desc(Command(h), true, false, r.d1)]
                 [r.d1 := Desc(Data(r.b), true, !r.write, r.d2)]
                 [r.d2 := Desc(Status(h), false, true, 0)],
           m.ops[h := Op(r.write, r.block * 2)], m.info[h := Some(r.b)], m.status[h := 255], m.busy[r.b := true])
  }

  /** It leaves the other requests alone. */
  lemma BuiltOther(m: Memory, g: nat, q: Req, h: nat, r: Req)
    requires m.Sized() && h < NUM && r.d1 < NUM && r.d2 < NUM && ChainOk(m, g, q) && InfoOk(m, g, q)
             && Clear(g, q, h, r) && q.b != r.b
    ensures Built(m, h, r).Sized() && ChainOk(Built(m, h, r), g, q) && InfoOk(Built(m, h, r), g, q)
  {
  }

  lemma BuiltNew(m: Memory, h: nat, r: Req)
    requires m.Sized() && h < NUM && r.d1 < NUM && r.d2 < NUM && h != r.d1 && h != r.d2 && r.d1 != r.d2
             && r.phase == Posted && r.status == 255
    ensures Built(m, h, r).Sized() && ChainOk(Built(m, h, r), h, r) && InfoOk(Built(m, h, r), h, r)
  {
  }

  lemma BuiltOk(m: Memory, reqs: map<nat, Req>, h: nat, r: Req)
    requires ReqsOk(m, reqs) && h < NUM && r.d1 < NUM && r.d2 < NUM && h != r.d1 && h != r.d2 && r.d1 != r.d2
             && r.phase == Posted && r.status == 255
    requires h !in reqs && forall g :: g in reqs ==> Clear(g, reqs[g], h, r) && reqs[g].b != r.b
    ensures ReqsOk(Built(m, h, r), reqs[h := r])
  {
    hide Built;
    hide ChainOk;
    hide InfoOk;
    var m' := Built(m, h, r);
    BuiltNew(m, h, r);
    forall g | g in reqs
      ensures ChainOk(m', g, reqs[g]) && InfoOk(m', g, reqs[g])
    {
      assert Clear(g, reqs[g], h, r);
      BuiltOther(m, g, reqs[g], h, r);
    }
  }

  /** The requests, their descriptors and their buffers. */
  ghost predicate PlanOk(m: Memory, free: seq<bool>, own: map<nat, nat>, reqs: map<nat, Req>, bufs: map<nat, Block>,
                         store: map<nat, Block>) {
    OwnOk(free, own, reqs) && ReqsOk(m, reqs) && Buffered(reqs, bufs, store)
  }

  lemma Shapes(m: Memory, free: seq<bool>, own: map<nat, nat>, reqs: map<nat, Req>, bufs: map<nat, Block>,
               store: map<nat, Block>)
    requires PlanOk(m, free, own, reqs, bufs, store)
    ensures m.Sized() && |free| == NUM && forall h :: h in reqs ==> h < NUM
  {
    forall h | h in reqs
      ensures h < NUM
    {
      assert Owns(own, h, reqs[h]);
    }
  }

  lemma PlanMore(m: Memory, free: seq<bool>, own: map<nat, nat>, reqs: map<nat, Req>, bufs: map<nat, Block>,
                 store: map<nat, Block>, h: nat, r: Req)
    requires PlanOk(m, free, own, reqs, bufs, store) && m.Sized() && |free| == NUM
    requires h < NUM && r.d1 < NUM && r.d2 < NUM && h != r.d1 && h != r.d2 && r.d1 != r.d2 && r.phase == Posted
             && r.status == 255
    requires free[h] && free[r.d1] && free[r.d2] && r.b in bufs && r.block in store && Idle(reqs, r.b)
    ensures h !in reqs && PlanOk(Built(m, h, r), Marked(free, h, r.d1, r.d2, false), Claimed(own, h, r), reqs[h := r],
                                 bufs, store)
  {
    hide OwnOk;
    hide ReqsOk;
    hide Built;
    hide Marked;
    hide Claimed;
    OwnMore(free, own, reqs, h, r);
    BuiltOk(m, reqs, h, r);
  }

  /** Both rings. */
  ghost predicate RingsOk(avail: seq<nat>, deviceIdx: nat, availIdx: nat, posted: seq<nat>, used: seq<nat>,
                          seenIdx: nat, usedIdx: nat, done: seq<nat>, reqs: map<nat, Req>) {
    && RingOk(avail, deviceIdx, availIdx, posted) && QueueOk(posted, reqs, Posted)
    && RingOk(used, seenIdx, usedIdx, done) && QueueOk(done, reqs, Phase.Used)
  }

  class Disk {
    var desc: seq<Desc>
    var free: seq<bool>
    var ops: seq<Op>
    var info: seq<Option<nat>>
    var status: seq<nat>
    var avail: seq<nat>
    var availIdx: nat
    var used: seq<nat>
    /** used->idx, which the device moves, and used_idx, how far the driver is. */
    var usedIdx: nat
    var seenIdx: nat
    /** How far the device is in the avail ring. */
    var deviceIdx: nat
    /** b->disk and b->data of the buffers, and the disk itself. */
    var busy: map<nat, bool>
    var bufs: map<nat, Block>
    var store: map<nat, Block>
    ghost var reqs: map<nat, Req>
    ghost var own: map<nat, nat>
    ghost var posted: seq<nat>
    ghost var done: seq<nat>

    ghost function Shared(): (m: Memory)
      reads this`desc, this`ops, this`info, this`status, this`busy
    {
      Memory(desc, ops, info, status, busy)
    }

    ghost predicate Plan()
      reads this
    {
      PlanOk(Shared(), free, own, reqs, bufs, store)
    }

    ghost predicate Rings()
      reads this`avail, this`deviceIdx, this`availIdx, this`posted, this`used, this`seenIdx, this`usedIdx, this`done,
        this`reqs
    {
      RingsOk(avail, deviceIdx, availIdx, posted, used, seenIdx, usedIdx, done, reqs)
    }

    ghost predicate Valid()
      reads this
    {
      Plan() && Rings()
    }

    /** virtio_disk_init: nothing in flight, every descriptor free. */
    constructor (bufs: map<nat, Block>, store: map<nat, Block>)
      ensures Valid() && reqs == map[] && this.bufs == bufs && this.store == store
    {
      desc, free, ops := seq(NUM, _ => FreeDesc), seq(NUM, _ => true), seq(NUM, _ => Op(false, 0));
      info, status := seq(NUM, _ => None), seq(NUM, _ => 0);
      avail, used := seq(NUM, _ => 0), seq(NUM, _ => 0);
      availIdx, usedIdx, seenIdx, deviceIdx := 0, 0, 0, 0;
      busy, this.bufs, this.store := map[], bufs, store;
      reqs, own, posted, done := map[], map[], [], [];
    }

    /** alloc_desc: the first free descriptor, if there is one. */
    method AllocDesc() returns (i: int)
      requires |free| == NUM
      modifies this`free
      ensures -1 <= i < NUM && |free| == NUM
      ensures i < 0 ==> free == old(free) && Count(free) == 0
      ensures i >= 0 ==> old(free)[i] && (forall j :: 0 <= j < i ==> !old(free)[j]) && free == old(free)[i := false]
      ensures i >= 0 ==> Count(free) == Count(old(free)) - 1
    {
      i := 0;
      while i < NUM
        invariant 0 <= i <= NUM && free == old(free) && forall j :: 0 <= j < i ==> !free[j]
      {
        if free[i] {
          CountTaken(free, i);
          free := free[i := false];
          return;
        }
        i := i + 1;
      }
      CountNone(free);
      i := -1;
    }

    /** free_desc, whose two panics the requires excludes. */
    method FreeOne(i: nat)
      requires |free| == NUM && |desc| == NUM && i < NUM && !free[i]
      modifies this`free, this`desc
      ensures free == old(free)[i := true] && desc == old(desc)[i := FreeDesc]
    {
      desc := desc[i := FreeDesc];
      free := free[i := true];
    }

    /** alloc3_desc's way back. */
    method Undo(idx: seq<nat>)
      requires |free| == NUM && |desc| == NUM && forall k :: 0 <= k < |idx| ==> idx[k] < NUM && !free[idx[k]]
      requires forall j, k :: 0 <= j < k < |idx| ==> idx[j] != idx[k]
      modifies this`free, this`desc
      ensures |free| == NUM && |desc| == NUM && forall k :: 0 <= k < |idx| ==> free[idx[k]]
      ensures forall k :: 0 <= k < NUM && k !in idx ==> free[k] == old(free)[k] && desc[k] == old(desc)[k]
    {
      var j := 0;
      while j < |idx|
        invariant 0 <= j <= |idx| && |free| == NUM && |desc| == NUM
        invariant forall k :: 0 <= k < |idx| ==> (free[idx[k]] <==> k < j)
        invariant forall k :: 0 <= k < NUM && k !in idx ==> free[k] == old(free)[k] && desc[k] == old(desc)[k]
      {
        FreeOne(idx[j]);
        j := j + 1;
      }
    }

    /** alloc3_desc: three descriptors that were free, or all as it was. */
    method Alloc3() returns (ok: bool, idx: seq<nat>)
      requires |free| == NUM && |desc| == NUM
      modifies this`free, this`desc
      ensures |free| == NUM && |desc| == NUM && (ok <==> Count(old(free)) >= 3)
      ensures ok ==>
                && |idx| == 3 && idx[0] != idx[1] && idx[0] != idx[2] && idx[1] != idx[2] && desc == old(desc)
                && (forall k :: 0 <= k < 3 ==> idx[k] < NUM && old(free)[idx[k]])
                && free == Marked(old(free), idx[0], idx[1], idx[2], false)
      ensures !ok ==> free == old(free) && forall i :: 0 <= i < NUM && !free[i] ==> desc[i] == old(desc)[i]
    {
      idx := [];
      var i := 0;
      while i < 3
        invariant 0 <= i <= 3 && |idx| == i && |free| == NUM && desc == old(desc)
        invariant Count(old(free)) == Count(free) + i
        invariant forall k :: 0 <= k < i ==> idx[k] < NUM && old(free)[idx[k]] && !free[idx[k]]
        invariant forall j, k :: 0 <= j < k < i ==> idx[j] != idx[k]
        invariant forall j :: 0 <= j < NUM && j !in idx ==> free[j] == old(free)[j]
      {
        var d := AllocDesc();
        if d < 0 {
          Undo(idx);
          assert free == old(free);
          return false, [];
        }
        idx := idx + [d];
        i := i + 1;
      }
      ok := true;
      assert free == Marked(old(free), idx[0], idx[1], idx[2], false);
    }

    /** virtio_disk_rw formats its three descriptors and records the buffer. */
    method Build(h: nat, d1: nat, d2: nat, b: nat, write: bool, block: nat)
      requires Shared().Sized() && h < NUM && d1 < NUM && d2 < NUM
      modifies this`ops, this`desc, this`status, this`busy, this`info
      ensures Shared() == Built(old(Shared()), h, Req(d1, d2, b, write, block, Posted, 255))
    {
      ops := ops[h := Op(write, block * 2)];
      desc := desc[h := Desc(Command(h), true, false, d1)];
      desc := desc[d1 := Desc(Data(b), true, !write, d2)];
      status := status[h := 255];
      desc := desc[d2 := Desc(Status(h), false, true, 0)];
      busy := busy[b := true];
      info := info[h := Some(b)];
    }

    /** The chain's head goes into the avail ring. */
    method Post(h: nat, ghost r: Req)
      requires Rings() && h < NUM && h !in reqs && r.phase == Posted && forall g :: g in reqs ==> g < NUM
      modifies this`avail, this`availIdx, this`reqs, this`posted
      ensures Rings() && reqs == old(reqs)[h := r]
    {
      hide RingOk;
      hide QueueOk;
      QueueAdd(posted, reqs, Posted, h, r);
      QueueKeep(done, reqs, Phase.Used, h, r);
      Room(posted, reqs, Posted, h);
      Push(avail, deviceIdx, availIdx, posted, h);
      avail := avail[availIdx % NUM := h];
      availIdx := (availIdx + 1) % WRAP;
      posted := posted + [h];
      reqs := reqs[h := r];
    }

    /** virtio_disk_rw with three descriptors at hand. */
    method Place(h: nat, d1: nat, d2: nat, b: nat, write: bool, block: nat, ghost free0: seq<bool>)
      requires PlanOk(Shared(), free0, own, reqs, bufs, store) && Rings() && b in bufs && block in store
               && Idle(reqs, b)
      requires h < NUM && d1 < NUM && d2 < NUM && h != d1 && h != d2 && d1 != d2
      requires |free0| == NUM && free0[h] && free0[d1] && free0[d2] && free == Marked(free0, h, d1, d2, false)
      modifies this`ops, this`desc, this`status, this`busy, this`info, this`avail, this`availIdx, this`reqs,
        this`posted, this`own
      ensures Valid() && h !in old(reqs) && reqs == old(reqs)[h := Req(d1, d2, b, write, block, Posted, 255)]
    {
      hide PlanOk;
      hide RingsOk;
      hide Marked;
      hide Claimed;
      hide Built;
      hide Idle;
      hide Shared;
      hide Rings;
      ghost var r := Req(d1, d2, b, write, block, Posted, 255);
      Shapes(Shared(), free0, own, reqs, bufs, store);
      PlanMore(Shared(), free0, own, reqs, bufs, store, h, r);
      Build(h, d1, d2, b, write, block);
      Post(h, r);
      own := Claimed(own, h, r);
    }

    /** The first part of virtio_disk_rw: the caller sleeps and tries again when
        fewer than three descriptors are free. */
    method Submit(b: nat, write: bool, block: nat) returns (head: Option<nat>)
      requires Valid() && b in bufs && block in store && Idle(reqs, b)
      modifies this`ops, this`desc, this`status, this`busy, this`info, this`free, this`avail, this`availIdx, this`reqs,
        this`posted, this`own
      ensures Valid() && (head.None? <==> Count(old(free)) < 3)
      ensures head.None? ==> reqs == old(reqs) && busy == old(busy)
      ensures head.Some? ==>
                && head.value !in old(reqs) && head.value in reqs
                && reqs[head.value] == Req(reqs[head.value].d1, reqs[head.value].d2, b, write, block, Posted, 255)
                && reqs == old(reqs)[head.value := reqs[head.value]]
    {
      hide PlanOk;
      hide RingsOk;
      hide Count;
      hide Marked;
      hide Claimed;
      hide Built;
      hide Idle;
      ghost var m, free0 := Shared(), free;
      Shapes(m, free, own, reqs, bufs, store);
      var ok, idx := Alloc3();
      if !ok {
        DescKept(m, free, own, reqs, bufs, store, desc);
        return None;
      }
      Place(idx[0], idx[1], idx[2], b, write, block, free0);
      head := Some(idx[0]);
    }

    /** The device takes the next chain that the driver has posted. */
    method DeviceTake() returns (h: nat)
      requires Valid() && deviceIdx != availIdx
      modifies this`deviceIdx, this`reqs, this`posted
      ensures Valid() && h in old(reqs) && old(reqs)[h].phase == Posted
              && reqs == old(reqs)[h := old(reqs)[h].(phase := Working)]
    {
      hide PlanOk;
      hide RingOk;
      hide QueueOk;
      hide Shared;
      NotEmpty(avail, deviceIdx, availIdx, posted);
      Pop(avail, deviceIdx, availIdx, posted);
      h := avail[deviceIdx % NUM];
      ghost var r := PhaseOf(posted, reqs, Posted, h).(phase := Working);
      QueueDrop(posted, reqs, Posted, r);
      QueueKeep(done, reqs, Phase.Used, h, r);
      PlanWorking(Shared(), free, own, reqs, bufs, store, h);
      deviceIdx := (deviceIdx + 1) % WRAP;
      posted := posted[1..];
      reqs := reqs[h := r];
    }

    /** The device follows the chain that starts at h to command, data and status,
        and does what it says, or fails with junk in the place of the data. */
    method Transfer(h: nat, st: nat, junk: Block, ghost r: Req)
      requires Shared().Sized() && ChainOk(Shared(), h, r) && r.b in bufs && r.block in store
      modifies this`bufs, this`store, this`status
      ensures r.write ==> store == old(store)[r.block := if st == 0 then old(bufs)[r.b] else junk] && bufs == old(bufs)
      ensures !r.write ==> bufs == old(bufs)[r.b := if st == 0 then old(store)[r.block] else junk]
                           && store == old(store)
      ensures status == old(status)[h := st]
    {
      var command := desc[h];
      var data := desc[command.next];
      var state := desc[data.next];
      var op, b := ops[command.addr.i], data.addr.b;
      if op.write {
        store := store[op.sector / 2 := if st == 0 then bufs[b] else junk];
      } else {
        bufs := bufs[b := if st == 0 then store[op.sector / 2] else junk];
      }
      status := status[state.addr.i := st];
    }

    /** The device completes a chain that it has taken, in any order among them,
        with any status. */
    method DeviceComplete(h: nat, st: nat, junk: Block)
      requires Valid() && h in reqs && reqs[h].phase == Working
      modifies this`bufs, this`store, this`status, this`used, this`usedIdx, this`reqs, this`done
      ensures Valid() && reqs == old(reqs)[h := old(reqs)[h].(phase := Phase.Used, status := st)]
      ensures var r := old(reqs)[h];
              && r.b in old(bufs) && r.block in old(store)
              && (r.write ==> store == old(store)[r.block := if st == 0 then old(bufs)[r.b] else junk]
                              && bufs == old(bufs))
              && (!r.write ==> bufs == old(bufs)[r.b := if st == 0 then old(store)[r.block] else junk]
                               && store == old(store))
    {
      hide PlanOk;
      hide RingsOk;
      hide Rings;
      hide ChainOk;
      ghost var m := Shared();
      Followed(m, free, own, reqs, bufs, store, h);
      Transfer(h, st, junk, reqs[h]);
      PlanDone(m, free, own, reqs, old(bufs), old(store), bufs, store, h, st);
      Finished(h, st);
    }

    /** The device adds h to the used ring. */
    method Finished(h: nat, ghost st: nat)
      requires Rings() && h in reqs && reqs[h].phase == Working && forall g :: g in reqs ==> g < NUM
      modifies this`used, this`usedIdx, this`reqs, this`done
      ensures Rings() && reqs == old(reqs)[h := old(reqs)[h].(phase := Phase.Used, status := st)]
    {
      hide RingOk;
      hide QueueOk;
      ghost var r := reqs[h].(phase := Phase.Used, status := st);
      QueueAdd(done, reqs, Phase.Used, h, r);
      QueueKeep(posted, reqs, Posted, h, r);
      Room(done, reqs, Phase.Used, h);
      Push(used, seenIdx, usedIdx, done, h);
      used := used[usedIdx % NUM := h];
      usedIdx := (usedIdx + 1) % WRAP;
      done := done + [h];
      reqs := reqs[h := r];
    }

    /** One turn of virtio_disk_intr's loop. It panics exactly when the device has
        failed; else the buffer is one that a request waits for. */
    method Notice() returns (panic: bool)
      requires Valid() && seenIdx != usedIdx
      modifies this`busy, this`seenIdx, this`reqs, this`done
      ensures old(done) != [] && old(done)[0] in old(reqs) && old(reqs)[old(done)[0]].phase == Phase.Used
      ensures panic <==> old(reqs)[old(done)[0]].status != 0
      ensures panic ==> busy == old(busy) && seenIdx == old(seenIdx) && reqs == old(reqs) && done == old(done)
      ensures !panic ==>
                var h := old(done)[0];
                && Valid() && done == old(done)[1..]
                && reqs == old(reqs)[h := old(reqs)[h].(phase := Seen)]
                && busy == old(busy)[old(reqs)[h].b := false]
    {
      hide PlanOk;
      hide RingOk;
      hide QueueOk;
      NotEmpty(used, seenIdx, usedIdx, done);
      Pop(used, seenIdx, usedIdx, done);
      var id := used[seenIdx % NUM];
      ghost var r := PhaseOf(done, reqs, Phase.Used, id).(phase := Seen);
      PlanSeen(Shared(), free, own, reqs, bufs, store, id);
      if status[id] != 0 {
        return true;
      }
      QueueDrop(done, reqs, Phase.Used, r);
      QueueKeep(posted, reqs, Posted, id, r);
      var b := info[id];
      busy := busy[b.value := false];
      seenIdx := (seenIdx + 1) % WRAP;
      done := done[1..];
      reqs := reqs[id := r];
      panic := false;
    }

    /** virtio_disk_intr: every chain in the used ring is noticed, once, unless the
        device has failed one of them. */
    method Intr() returns (panic: bool)
      requires Valid()
      modifies this`busy, this`seenIdx, this`reqs, this`done
      ensures panic <==> exists h :: h in old(reqs) && old(reqs)[h].phase == Phase.Used && old(reqs)[h].status != 0
      ensures !panic ==> Valid() && done == [] && reqs.Keys == old(reqs).Keys
      ensures !panic ==> forall h :: h in reqs ==> reqs[h] == Noticed(old(reqs)[h])
    {
      hide PlanOk;
      hide RingOk;
      hide QueueOk;
      hide Noticed;
      NoticedIs(reqs);
      while seenIdx != usedIdx
        invariant Valid() && reqs.Keys == old(reqs).Keys
        invariant forall h :: h in reqs ==> (reqs[h] == old(reqs)[h] || reqs[h] == Noticed(old(reqs)[h]))
        invariant forall h :: h in reqs && old(reqs)[h].phase == Phase.Used && old(reqs)[h].status != 0 ==>
                    reqs[h] == old(reqs)[h]
        decreases |done|
      {
        panic := Notice();
        if panic {
          return;
        }
      }
      NotEmpty(used, seenIdx, usedIdx, done);
      NoneLeft(done, reqs, Phase.Used);
      panic := false;
    }

    /** free_chain: the three descriptors of a request, and no others, are free
        again, and the loop ends. */
    method FreeChain(head: nat, ghost r: Req)
      requires Shared().Sized() && |free| == NUM && ChainOk(Shared(), head, r) && !free[head] && !free[r.d1]
               && !free[r.d2]
      modifies this`free, this`desc
      ensures free == Marked(old(free), head, r.d1, r.d2, true)
      ensures desc == old(desc)[head := FreeDesc][r.d1 := FreeDesc][r.d2 := FreeDesc]
    {
      var i := head;
      var chained := true;
      ghost var k := 0;
      while chained
        invariant 0 <= k <= 3 && |free| == NUM && |desc| == NUM && (chained <==> k < 3)
        invariant k < 3 ==> i == [head, r.d1, r.d2][k]
        invariant free == [old(free), old(free)[head := true], old(free)[head := true][r.d1 := true],
                           Marked(old(free), head, r.d1, r.d2, true)][k]
        invariant desc == [old(desc), old(desc)[head := FreeDesc], old(desc)[head := FreeDesc][r.d1 := FreeDesc],
                           old(desc)[head := FreeDesc][r.d1 := FreeDesc][r.d2 := FreeDesc]][k]
        decreases 3 - k
      {
        chained := desc[i].chained;
        var next := desc[i].next;
        FreeOne(i);
        if chained {
          i := next;
        }
        k := k + 1;
      }
    }

    /** info[idx[0]].b = 0 and free_chain(idx[0]). */
    method Wipe(h: nat, ghost r: Req)
      requires Shared().Sized() && |free| == NUM && ChainOk(Shared(), h, r) && !free[h] && !free[r.d1] && !free[r.d2]
      modifies this`info, this`free, this`desc
      ensures Shared() == Wiped(old(Shared()), h, r) && free == Marked(old(free), h, r.d1, r.d2, true)
    {
      hide Marked;
      info := info[h := None];
      FreeChain(h, r);
    }

    /** The last part of virtio_disk_rw, once b->disk is 0. */
    method Finish(h: nat)
      requires Valid() && h in reqs && reqs[h].phase == Seen
      modifies this`info, this`free, this`desc, this`reqs, this`own
      ensures Valid() && reqs == old(reqs) - {h} && Count(free) == Count(old(free)) + 3
    {
      hide PlanOk;
      hide RingsOk;
      hide ChainOk;
      hide Marked;
      hide Count;
      hide Wiped;
      hide Shared;
      ghost var m, r := Shared(), reqs[h];
      Followed(m, free, own, reqs, bufs, store, h);
      PlanLess(m, free, own, reqs, bufs, store, h);
      RingsLess(avail, deviceIdx, availIdx, posted, used, seenIdx, usedIdx, done, reqs, h);
      Wipe(h, r);
      reqs := reqs - {h};
      own := own - {h, r.d1, r.d2};
    }
  }

  lemma NoneLeft(q: seq<nat>, reqs: map<nat, Req>, phase: Phase)
    requires QueueOk(q, reqs, phase) && q == []
    ensures forall h :: h in reqs ==> reqs[h].phase != phase
  {
  }

  lemma RingsLess(avail: seq<nat>, deviceIdx: nat, availIdx: nat, posted: seq<nat>, used: seq<nat>, seenIdx: nat,
                  usedIdx: nat, done: seq<nat>, reqs: map<nat, Req>, h: nat)
    requires RingsOk(avail, deviceIdx, availIdx, posted, used, seenIdx, usedIdx, done, reqs) && h in reqs
             && reqs[h].phase == Seen
    ensures RingsOk(avail, deviceIdx, availIdx, posted, used, seenIdx, usedIdx, done, reqs - {h})
  {
    hide RingOk;
    hide QueueOk;
    QueueLess(posted, reqs, Posted, h);
    QueueLess(done, reqs, Phase.Used, h);
  }

  /** Memory after a request is wiped. */
  function Wiped(m: Memory, h: nat, r: Req): (m': Memory)
    requires m.Sized() && h < NUM && r.d1 < NUM && r.d2 < NUM
  {
    m.(info := m.info[h := None], desc := m.desc[h := FreeDesc][r.d1 := FreeDesc][r.d2 := FreeDesc])
  }

  lemma ReqsLess(m: Memory, reqs: map<nat, Req>, h: nat)
    requires ReqsOk(m, reqs) && h in reqs && m.Sized() && ChainOk(m, h, reqs[h])
    requires forall g :: g in reqs && g != h ==> Clear(g, reqs[g], h, reqs[h])
    ensures ReqsOk(Wiped(m, h, reqs[h]), reqs - {h})
  {
    hide Wiped;
    hide InfoOk;
    var m' := Wiped(m, h, reqs[h]);
    forall g | g in reqs - {h}
      ensures m'.Sized() && ChainOk(m', g, reqs[g]) && InfoOk(m', g, reqs[g])
    {
      assert Clear(g, reqs[g], h, reqs[h]);
      WipedOther(m, g, reqs[g], h, reqs[h]);
    }
    WipedSized(m, h, reqs[h]);
  }

  lemma WipedSized(m: Memory, h: nat, r: Req)
    requires m.Sized() && h < NUM && r.d1 < NUM && r.d2 < NUM
    ensures Wiped(m, h, r).Sized()
  {
  }

  lemma WipedOther(m: Memory, g: nat, q: Req, h: nat, r: Req)
    requires m.Sized() && h < NUM && r.d1 < NUM && r.d2 < NUM && ChainOk(m, g, q) && InfoOk(m, g, q)
             && Clear(g, q, h, r)
    ensures Wiped(m, h, r).Sized() && ChainOk(Wiped(m, h, r), g, q) && InfoOk(Wiped(m, h, r), g, q)
  {
  }

  lemma InUse(free: seq<bool>, own: map<nat, nat>, reqs: map<nat, Req>, h: nat)
    requires OwnOk(free, own, reqs) && h in reqs && h < NUM && reqs[h].d1 < NUM && reqs[h].d2 < NUM
    ensures |free| == NUM && !free[h] && !free[reqs[h].d1] && !free[reqs[h].d2]
  {
    assert Owns(own, h, reqs[h]);
  }

  lemma PlanLess(m: Memory, free: seq<bool>, own: map<nat, nat>, reqs: map<nat, Req>, bufs: map<nat, Block>,
                 store: map<nat, Block>, h: nat)
    requires PlanOk(m, free, own, reqs, bufs, store) && h in reqs && m.Sized() && ChainOk(m, h, reqs[h])
    ensures var r := reqs[h];
            && |free| == NUM && !free[h] && !free[r.d1] && !free[r.d2]
            && PlanOk(Wiped(m, h, r), Marked(free, h, r.d1, r.d2, true), own - {h, r.d1, r.d2}, reqs - {h}, bufs, store)
            && Count(Marked(free, h, r.d1, r.d2, true)) == Count(free) + 3
  {
    hide Marked;
    hide OwnOk;
    hide ReqsOk;
    hide Wiped;
    hide Count;
    InUse(free, own, reqs, h);
    OwnLess(free, own, reqs, h);
    ReqsLess(m, reqs, h);
    CountThree(free, h, reqs[h].d1, reqs[h].d2);
  }

  lemma CountThree(free: seq<bool>, a: nat, b: nat, c: nat)
    requires |free| == NUM && a < NUM && b < NUM && c < NUM && a != b && a != c && b != c && !free[a] && !free[b]
             && !free[c]
    ensures Count(Marked(free, a, b, c, true)) == Count(free) + 3
  {
    hide Count;
    var f1, f2 := free[a := true], free[a := true][b := true];
    CountTaken(f1, a);
    assert f1[a := false] == free;
    CountTaken(f2, b);
    assert f2[b := false] == f1;
    CountTaken(f2[c := true], c);
    assert f2[c := true][c := false] == f2;
  }

  ghost function PhaseOf(q: seq<nat>, reqs: map<nat, Req>, phase: Phase, h: nat): (r: Req)
    requires QueueOk(q, reqs, phase) && h in q
    ensures h in reqs && r == reqs[h] && r.phase == phase
  {
    reqs[h]
  }

  /** One request moves on: its status or its buffer's flag changes with it. */
  lemma ReqsStep(m: Memory, m': Memory, reqs: map<nat, Req>, h: nat, r: Req)
    requires ReqsOk(m, reqs) && h in reqs && r == reqs[h].(phase := r.phase, status := r.status) && m'.Sized()
    requires m'.desc == m.desc && m'.ops == m.ops && m'.info == m.info && InfoOk(m', h, r)
    requires forall i :: 0 <= i < NUM && i != h ==> m'.status[i] == m.status[i]
    requires forall b :: b in m.busy && b != r.b ==> b in m'.busy && m'.busy[b] == m.busy[b]
    ensures ReqsOk(m', reqs[h := r])
  {
    var reqs' := reqs[h := r];
    forall g | g in reqs'
      ensures ChainOk(m', g, reqs'[g]) && InfoOk(m', g, reqs'[g])
    {
      assert ChainOk(m, g, reqs[g]) && InfoOk(m, g, reqs[g]);
    }
  }

  lemma InfoAt(m: Memory, reqs: map<nat, Req>, h: nat)
    requires ReqsOk(m, reqs) && h in reqs
    ensures m.Sized() && InfoOk(m, h, reqs[h])
  {
  }

  lemma PlanWorking(m: Memory, free: seq<bool>, own: map<nat, nat>, reqs: map<nat, Req>, bufs: map<nat, Block>,
                    store: map<nat, Block>, h: nat)
    requires PlanOk(m, free, own, reqs, bufs, store) && h in reqs && reqs[h].phase == Posted
    ensures PlanOk(m, free, own, reqs[h := reqs[h].(phase := Working)], bufs, store)
  {
    hide OwnOk;
    hide ReqsOk;
    OwnSame(free, own, reqs, h, Working, reqs[h].status);
    InfoAt(m, reqs, h);
    ReqsStep(m, m, reqs, h, reqs[h].(phase := Working));
  }

  /** The chain leads to the request's command, buffer and status byte. */
  lemma Followed(m: Memory, free: seq<bool>, own: map<nat, nat>, reqs: map<nat, Req>, bufs: map<nat, Block>,
                 store: map<nat, Block>, h: nat)
    requires PlanOk(m, free, own, reqs, bufs, store) && h in reqs
    ensures m.Sized() && ChainOk(m, h, reqs[h]) && reqs[h].b in bufs && reqs[h].block in store
    ensures forall g :: g in reqs ==> g < NUM
  {
    Shapes(m, free, own, reqs, bufs, store);
  }

  lemma PlanDone(m: Memory, free: seq<bool>, own: map<nat, nat>, reqs: map<nat, Req>, bufs: map<nat, Block>,
                 store: map<nat, Block>, bufs': map<nat, Block>, store': map<nat, Block>, h: nat, st: nat)
    requires PlanOk(m, free, own, reqs, bufs, store) && h in reqs && reqs[h].phase == Working && h < NUM && m.Sized()
    requires bufs.Keys <= bufs'.Keys && store.Keys <= store'.Keys
    ensures PlanOk(m.(status := m.status[h := st]), free, own, reqs[h := reqs[h].(phase := Phase.Used, status := st)],
                   bufs', store')
  {
    hide OwnOk;
    hide ReqsOk;
    OwnSame(free, own, reqs, h, Phase.Used, st);
    InfoAt(m, reqs, h);
    ReqsStep(m, m.(status := m.status[h := st]), reqs, h, reqs[h].(phase := Phase.Used, status := st));
  }

  lemma PlanSeen(m: Memory, free: seq<bool>, own: map<nat, nat>, reqs: map<nat, Req>, bufs: map<nat, Block>,
                 store: map<nat, Block>, h: nat)
    requires PlanOk(m, free, own, reqs, bufs, store) && h in reqs && reqs[h].phase == Phase.Used
    ensures m.Sized() && h < NUM && m.info[h] == Some(reqs[h].b) && m.status[h] == reqs[h].status
    ensures reqs[h].status == 0 ==>
              PlanOk(m.(busy := m.busy[reqs[h].b := false]), free, own, reqs[h := reqs[h].(phase := Seen)], bufs, store)
  {
    hide OwnOk;
    hide ReqsOk;
    OwnSame(free, own, reqs, h, Seen, reqs[h].status);
    InfoAt(m, reqs, h);
    if reqs[h].status == 0 {
      ReqsStep(m, m.(busy := m.busy[reqs[h].b := false]), reqs, h, reqs[h].(phase := Seen));
    }
  }

  /** Descriptors that are in use do not change under a failed alloc3_desc. */
  lemma DescKept(m: Memory, free: seq<bool>, own: map<nat, nat>, reqs: map<nat, Req>, bufs: map<nat, Block>,
                 store: map<nat, Block>, desc: seq<Desc>)
    requires PlanOk(m, free, own, reqs, bufs, store) && m.Sized() && |free| == NUM && |desc| == NUM
    requires forall i :: 0 <= i < NUM && !free[i] ==> desc[i] == m.desc[i]
    ensures PlanOk(m.(desc := desc), free, own, reqs, bufs, store)
  {
    forall h | h in reqs
      ensures ChainOk(m.(desc := desc), h, reqs[h])
    {
      assert Owns(own, h, reqs[h]);
    }
  }

  /** The list of a phase has room for one more request. */
  lemma Room(q: seq<nat>, reqs: map<nat, Req>, phase: Phase, h: nat)
    requires QueueOk(q, reqs, phase) && h < NUM && h !in q && forall g :: g in reqs ==> g < NUM
    ensures |q| < NUM
  {
    NotFull(q, h);
  }

  /** Each request owns three descriptors. */
  lemma {:induction false} OwnSize(free: seq<bool>, own: map<nat, nat>, reqs: map<nat, Req>)
    requires OwnOk(free, own, reqs)
    ensures |own.Keys| == 3 * |reqs.Keys|
    decreases |reqs.Keys|
  {
    hide OwnOk;
    hide Marked;
    if reqs.Keys == {} {
      NoChains(free, own, reqs);
    } else {
      var h :| h in reqs.Keys;
      var r := reqs[h];
      InChains(free, own, reqs, h);
      OwnLess(free, own, reqs, h);
      OwnSize(Marked(free, h, r.d1, r.d2, true), own - {h, r.d1, r.d2}, reqs - {h});
      assert (reqs - {h}).Keys == reqs.Keys - {h};
      assert (own - {h, r.d1, r.d2}).Keys == own.Keys - {h} - {r.d1} - {r.d2};
    }
  }

  lemma NoChains(free: seq<bool>, own: map<nat, nat>, reqs: map<nat, Req>)
    requires OwnOk(free, own, reqs) && reqs.Keys == {}
    ensures own.Keys == {}
  {
    forall i | i in own
      ensures own[i] in reqs.Keys
    {
      assert OwnAt(own, reqs, i);
    }
  }

  lemma InChains(free: seq<bool>, own: map<nat, nat>, reqs: map<nat, Req>, h: nat)
    requires OwnOk(free, own, reqs) && h in reqs
    ensures h < NUM && reqs[h].d1 < NUM && reqs[h].d2 < NUM && Owns(own, h, reqs[h]) && |free| == NUM
  {
    assert Owns(own, h, reqs[h]);
    assert OwnAt(own, reqs, h) && OwnAt(own, reqs, reqs[h].d1) && OwnAt(own, reqs, reqs[h].d2);
  }

  /** At most two requests are in flight. */
  lemma AtMostTwo(m: Memory, free: seq<bool>, own: map<nat, nat>, reqs: map<nat, Req>, bufs: map<nat, Block>,
                  store: map<nat, Block>)
    requires PlanOk(m, free, own, reqs, bufs, store)
    ensures |reqs.Keys| <= 2
  {
    OwnSize(free, own, reqs);
    forall i | i in own.Keys
      ensures i in Interval(0, NUM)
    {
      assert OwnAt(own, reqs, i);
    }
    SubsetCount(own.Keys, Interval(0, NUM));
  }
}
