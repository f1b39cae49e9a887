/** The request queues of bhyve's block backend: elements move between a free, a pending and a busy
    queue, and a request that starts where an outstanding one ends is held back behind it. */
module BlockQueue {
  datatype Op = Read | Write | Flush | Delete

  datatype Status = Free | Block | Pend | Busy | Done

  /** A caller's request: its identity, start offset and buffer lengths. */
  datatype Req = Req(id: int, offset: int, lens: seq<nat>)

  /** `order` is history: how many requests had been accepted before this one. */
  datatype Elem = Elem(req: Req, op: Op, status: Status, block: int, order: nat)

  type Slot = nat

  const MAX_REQ: nat := 128 + 8
  const OFF_MAX: int := 0x7fff_ffff_ffff_ffff
  const NO_REQ := Req(0, 0, [])

  datatype Ctxt = Ctxt(freeq: seq<Slot>, pendq: seq<Slot>, busyq: seq<Slot>, elems: seq<Elem>, accepted: nat)

  function Sum(lens: seq<nat>): nat {
    if lens == [] then 0 else Sum(lens[..|lens| - 1]) + lens[|lens| - 1]
  }

  /** Where the request ends; a flush ends nowhere. */
  function End(req: Req, op: Op): int {
    if op.Flush? then OFF_MAX else req.offset + Sum(req.lens)
  }

  predicate InRange(q: seq<Slot>, elems: seq<Elem>) {
    forall i :: 0 <= i < |q| ==> q[i] < |elems|
  }

  /** Some request in q ends at `off`. */
  predicate EndsAt(q: seq<Slot>, elems: seq<Elem>, off: int)
    requires InRange(q, elems)
  {
    exists i :: 0 <= i < |q| && elems[q[i]].block == off
  }

  predicate HasPend(q: seq<Slot>, elems: seq<Elem>)
    requires InRange(q, elems)
  {
    exists i :: 0 <= i < |q| && elems[q[i]].status.Pend?
  }

  /** The queue without slot x. */
  function Drop(q: seq<Slot>, x: Slot): (r: seq<Slot>)
    ensures forall y :: y in r <==> y in q && y != x
  {
    if q == [] then [] else Drop(q[..|q| - 1], x) + if q[|q| - 1] == x then [] else [q[|q| - 1]]
  }

  /** The elements once every request of q that starts at `off` may run. */
  function Released(elems: seq<Elem>, q: seq<Slot>, off: int): (r: seq<Elem>)
    ensures |r| == |elems|
  {
    seq(|elems|, i requires 0 <= i < |elems| =>
      if i in q && elems[i].req.offset == off then elems[i].(status := Pend) else elems[i])
  }

  ghost predicate Shape(c: Ctxt) {
    && |c.elems| == MAX_REQ
    && InRange(c.freeq, c.elems) && InRange(c.pendq, c.elems) && InRange(c.busyq, c.elems)
  }

  /** `blockif_enqueue`. */
  ghost function Enqueued(c: Ctxt, req: Req, op: Op): Ctxt
    requires Shape(c) && c.freeq != []
  {
    var x := c.freeq[0];
    var held := EndsAt(c.pendq, c.elems, req.offset) || EndsAt(c.busyq, c.elems, req.offset);
    Ctxt(c.freeq[1..], c.pendq + [x], c.busyq,
         c.elems[x := Elem(req, op, if held then Block else Pend, End(req, op), c.accepted)], c.accepted + 1)
  }

  /** `blockif_dequeue`, when slot `c.pendq[i]` is the first that may run. */
  function Dequeued(c: Ctxt, i: nat): Ctxt
    requires i < |c.pendq| && c.pendq[i] < |c.elems|
  {
    var x := c.pendq[i];
    c.(pendq := c.pendq[..i] + c.pendq[i + 1..], busyq := c.busyq + [x], elems := c.elems[x := c.elems[x].(status := Busy)])
  }

  predicate FirstPend(c: Ctxt, i: nat) {
    && i < |c.pendq| && InRange(c.pendq, c.elems) && c.elems[c.pendq[i]].status.Pend?
    && forall j :: 0 <= j < i ==> !c.elems[c.pendq[j]].status.Pend?
  }

  /** `blockif_complete`. */
  function Completed(c: Ctxt, x: Slot): Ctxt
    requires x < |c.elems|
  {
    var e := c.elems[x];
    var pendq := if e.status.Done? || e.status.Busy? then c.pendq else Drop(c.pendq, x);
    var busyq := if e.status.Done? || e.status.Busy? then Drop(c.busyq, x) else c.busyq;
    Ctxt(c.freeq + [x], pendq, busyq, Released(c.elems, pendq, e.block)[x := Elem(NO_REQ, e.op, Free, e.block, e.order)], c.accepted)
  }

  /** A pending request is `id`. */
  predicate HasReq(c: Ctxt, id: int) {
    InRange(c.pendq, c.elems) && exists i :: 0 <= i < |c.pendq| && c.elems[c.pendq[i]].req.id == id
  }

  /** Slot of the first pending request that is `id`, if any. */
  predicate FirstReq(c: Ctxt, i: nat, id: int) {
    && i < |c.pendq| && InRange(c.pendq, c.elems) && c.elems[c.pendq[i]].req.id == id
    && forall j :: 0 <= j < i ==> c.elems[c.pendq[j]].req.id != id
  }

  lemma SumStep(lens: seq<nat>, i: nat)
    requires i < |lens|
    ensures Sum(lens[..i + 1]) == Sum(lens[..i]) + lens[i]
  {
    assert lens[..i + 1][..i] == lens[..i];
  }

  lemma ReleasedStep(elems: seq<Elem>, q: seq<Slot>, i: nat, off: int)
    requires i < |q| && InRange(q, elems)
    ensures var r, x := Released(elems, q[..i], off), q[i];
            && r[x].req == elems[x].req
            && Released(elems, q[..i + 1], off) == if elems[x].req.offset == off then r[x := r[x].(status := Pend)] else r
  {
    assert q[..i + 1] == q[..i] + [q[i]];
  }

  /** The switch on the operation. */
  method EndOf(req: Req, op: Op) returns (off: int)
    ensures off == End(req, op)
  {
    if op.Flush? {
      return OFF_MAX;
    }
    off := req.offset;
    var i := 0;
    while i < |req.lens|
      invariant 0 <= i <= |req.lens| && off == req.offset + Sum(req.lens[..i])
    {
      SumStep(req.lens, i);
      off := off + req.lens[i];
      i := i + 1;
    }
    assert req.lens[..i] == req.lens;
  }

  /** `struct blockif_ctxt` under its lock. */
  class BlockIf {
    var freeq: seq<Slot>
    var pendq: seq<Slot>
    var busyq: seq<Slot>
    const reqs: array<Elem>
    var accepted: nat

    ghost function Value(): Ctxt
      reads this, reqs
    {
      Ctxt(freeq, pendq, busyq, reqs[..], accepted)
    }

    ghost predicate Valid()
      reads this, reqs
    {
      Shape(Value())
    }

    constructor ()
      ensures Valid() && fresh(reqs)
      ensures pendq == [] && busyq == [] && accepted == 0
      ensures freeq == seq(MAX_REQ, i => i)
      ensures forall i :: 0 <= i < MAX_REQ ==> reqs[i].status.Free?
    {
      freeq, pendq, busyq, accepted := seq(MAX_REQ, i => i), [], [], 0;
      reqs := new Elem[MAX_REQ](_ => Elem(NO_REQ, Read, Free, 0, 0));
    }

    /** One of the two scans for an outstanding request that ends at `off`. */
    method Scan(q: seq<Slot>, off: int) returns (found: bool)
      requires InRange(q, reqs[..])
      ensures found <==> EndsAt(q, reqs[..], off)
    {
      var k := 0;
      while k < |q| && reqs[q[k]].block != off
        invariant 0 <= k <= |q|
        invariant forall j :: 0 <= j < k ==> reqs[q[j]].block != off
      {
        k := k + 1;
      }
      found := k < |q|;
      assert found ==> reqs[..][q[k]].block == off;
    }

    method Enqueue(req: Req, op: Op) returns (runnable: bool)
      requires Valid() && freeq != []
      modifies this, reqs
      ensures Valid() && Value() == Enqueued(old(Value()), req, op)
      ensures runnable == reqs[old(freeq[0])].status.Pend?
    {
      var x := freeq[0];
      freeq := freeq[1..];
      var off := EndOf(req, op);
      var held := Scan(pendq, req.offset);
      if !held {
        held := Scan(busyq, req.offset);
      }
      reqs[x] := Elem(req, op, if held then Block else Pend, off, accepted);
      pendq := pendq + [x];
      accepted := accepted + 1;
      runnable := !held;
    }

    method Dequeue() returns (found: bool, x: Slot)
      requires Valid()
      modifies this, reqs
      ensures Valid()
      ensures found <==> HasPend(old(pendq), old(reqs[..]))
      ensures found ==> exists i: nat :: FirstPend(old(Value()), i) && x == old(pendq)[i] && Value() == Dequeued(old(Value()), i)
      ensures !found ==> Value() == old(Value())
    {
      var i := 0;
      while i < |pendq| && !reqs[pendq[i]].status.Pend?
        invariant 0 <= i <= |pendq|
        invariant forall j :: 0 <= j < i ==> !reqs[pendq[j]].status.Pend?
        modifies {}
      {
        i := i + 1;
      }
      if i == |pendq| {
        return false, 0;
      }
      x := pendq[i];
      assert FirstPend(Value(), i);
      pendq := pendq[..i] + pendq[i + 1..];
      reqs[x] := reqs[x].(status := Busy);
      busyq := busyq + [x];
      found := true;
      assert Value() == Dequeued(old(Value()), i);
    }

    /** Let every pending request that starts at `off` run. */
    method Release(off: int)
      requires InRange(pendq, reqs[..])
      modifies reqs
      ensures reqs[..] == Released(old(reqs[..]), pendq, off)
    {
      ghost var was := reqs[..];
      var i := 0;
      assert Released(was, pendq[..0], off) == was;
      while i < |pendq|
        invariant 0 <= i <= |pendq| && reqs[..] == Released(was, pendq[..i], off)
      {
        ReleasedStep(was, pendq, i, off);
        if reqs[pendq[i]].req.offset == off {
          reqs[pendq[i]] := reqs[pendq[i]].(status := Pend);
        }
        i := i + 1;
      }
      assert pendq[..i] == pendq;
    }

    method Complete(x: Slot)
      requires Valid() && x < reqs.Length
      modifies this, reqs
      ensures Valid() && Value() == Completed(old(Value()), x)
    {
      var e := reqs[x];
      DropInRange(pendq, x, reqs[..]);
      DropInRange(busyq, x, reqs[..]);
      if e.status.Done? || e.status.Busy? {
        busyq := Drop(busyq, x);
      } else {
        pendq := Drop(pendq, x);
      }
      Release(e.block);
      reqs[x] := Elem(NO_REQ, e.op, Free, e.block, e.order);
      freeq := freeq + [x];
    }

    /** The pending branch of `blockif_cancel`. */
    method CancelPending(id: int) returns (found: bool)
      requires Valid()
      modifies this, reqs
      ensures Valid()
      ensures found <==> HasReq(old(Value()), id)
      ensures found ==> exists i: nat :: FirstReq(old(Value()), i, id) && Value() == Completed(old(Value()), old(pendq)[i])
      ensures !found ==> Value() == old(Value())
    {
      var i := 0;
      while i < |pendq| && reqs[pendq[i]].req.id != id
        invariant 0 <= i <= |pendq|
        invariant forall j :: 0 <= j < i ==> reqs[pendq[j]].req.id != id
        modifies {}
      {
        i := i + 1;
      }
      found := i < |pendq|;
      if found {
        assert FirstReq(Value(), i, id);
        Complete(pendq[i]);
      }
    }
  }

  lemma DropInRange(q: seq<Slot>, x: Slot, elems: seq<Elem>)
    requires InRange(q, elems)
    ensures InRange(Drop(q, x), elems)
  {
    var r := Drop(q, x);
    forall i | 0 <= i < |r| ensures r[i] < |elems| {
      assert r[i] in q;
    }
  }
}
