/** Every step of the block backend keeps the invariant. */
module BlockProofs {
  import opened BlockQueue
  import opened BlockProtocol
  import opened BlockInvariant

  // Queues as multisets

  lemma {:induction false} DropCounts(q: seq<Slot>, x: Slot)
    ensures multiset(Drop(q, x)) == multiset(q)[x := 0]
  {
    if q != [] {
      var p, y := q[..|q| - 1], q[|q| - 1];
      DropCounts(p, x);
      assert q == p + [y];
    }
  }

  lemma CutCounts(q: seq<Slot>, i: nat)
    requires i < |q|
    ensures multiset(q[..i] + q[i + 1..]) == multiset(q) - multiset{q[i]}
  {
    assert q == q[..i] + [q[i]] + q[i + 1..];
  }

  /** A pending queue from which one entry is dropped keeps its order. */
  ghost predicate Rising(q: seq<Slot>, elems: seq<Elem>)
  {
    InRange(q, elems) && forall i, j :: 0 <= i < j < |q| ==> elems[q[i]].order < elems[q[j]].order
  }

  lemma {:induction false} DropRises(q: seq<Slot>, x: Slot, elems: seq<Elem>)
    requires Rising(q, elems)
    ensures Rising(Drop(q, x), elems)
  {
    if q != [] {
      var p, y := q[..|q| - 1], q[|q| - 1];
      DropRises(p, x, elems);
      DropInRange(q, x, elems);
      var d := Drop(p, x);
      forall i | 0 <= i < |d| ensures elems[d[i]].order < elems[y].order {
        assert d[i] in p;
      }
    }
  }

  lemma RisesSame(q: seq<Slot>, elems: seq<Elem>, elems': seq<Elem>)
    requires Rising(q, elems) && |elems'| == |elems| && forall x :: x in q && x < |elems| ==> elems'[x].order == elems[x].order
    ensures Rising(q, elems')
  {
    forall i, j | 0 <= i < j < |q| ensures elems'[q[i]].order < elems'[q[j]].order {
      assert q[i] in q && q[j] in q;
    }
  }

  // Enqueue

  lemma EnqueueSlots(c: Ctxt, req: Req, op: Op)
    requires SlotInv(c) && c.freeq != []
    ensures SlotInv(Enqueued(c, req, op))
  {
    var c', x := Enqueued(c, req, op), c.freeq[0];
    assert c.freeq == [x] + c.freeq[1..];
    assert SlotOk(c, x, c.elems[x]);
    forall y | 0 <= y < |c'.elems| ensures SlotOk(c', y, c'.elems[y]) {
      assert SlotOk(c, y, c.elems[y]);
    }
    EnqueueOrders(c, req, op);
  }

  lemma EnqueueOrders(c: Ctxt, req: Req, op: Op)
    requires SlotInv(c) && c.freeq != []
    ensures var es := Enqueued(c, req, op).elems;
            forall y, z :: 0 <= y < |es| && 0 <= z < |es| ==> OrdersDiffer(y, z, es[y], es[z])
  {
    var es := Enqueued(c, req, op).elems;
    forall y, z | 0 <= y < |es| && 0 <= z < |es| ensures OrdersDiffer(y, z, es[y], es[z]) {
      assert OrdersDiffer(y, z, c.elems[y], c.elems[z]) && SlotOk(c, y, c.elems[y]) && SlotOk(c, z, c.elems[z]);
    }
  }

  lemma EnqueueBlocks(c: Ctxt, req: Req, op: Op)
    requires SlotInv(c) && BlockInv(c) && c.freeq != []
    ensures BlockInv(Enqueued(c, req, op))
  {
    var c', x := Enqueued(c, req, op), c.freeq[0];
    assert SlotOk(c, x, c.elems[x]);
    if c'.elems[x].status.Block? {
      HeldBehind(c, req, op);
    }
    forall y | 0 <= y < |c'.elems| ensures BlockOk(c'.elems, c'.elems[y]) {
      if y != x {
        assert BlockOk(c.elems, c.elems[y]);
        StillBehind(c.elems, c'.elems, c.elems[y]);
      }
    }
  }

  lemma HeldBehind(c: Ctxt, req: Req, op: Op)
    requires SlotInv(c) && c.freeq != [] && Enqueued(c, req, op).elems[c.freeq[0]].status.Block?
    ensures var e' := Enqueued(c, req, op).elems; BlockOk(e', e'[c.freeq[0]])
  {
    var q := if EndsAt(c.pendq, c.elems, req.offset) then c.pendq else c.busyq;
    var i :| 0 <= i < |q| && c.elems[q[i]].block == req.offset;
    assert q[i] in q && SlotOk(c, q[i], c.elems[q[i]]) && SlotOk(c, c.freeq[0], c.elems[c.freeq[0]]);
    var e' := Enqueued(c, req, op).elems;
    assert Behind(e'[c.freeq[0]], e'[q[i]]);
  }

  /** Who waits behind an outstanding request still does when no outstanding request goes. */
  lemma StillBehind(elems: seq<Elem>, elems': seq<Elem>, e: Elem)
    requires BlockOk(elems, e) && |elems'| == |elems|
    requires forall y :: 0 <= y < |elems| && Behind(e, elems[y]) ==> Behind(e, elems'[y])
    ensures BlockOk(elems', e)
  {
    if e.status.Block? {
      var y :| 0 <= y < |elems| && Behind(e, elems[y]);
      assert Behind(e, elems'[y]);
    }
  }

  lemma EnqueueFifo(c: Ctxt, req: Req, op: Op)
    requires SlotInv(c) && FifoInv(c) && c.freeq != []
    ensures FifoInv(Enqueued(c, req, op))
  {
    var c', x := Enqueued(c, req, op), c.freeq[0];
    assert SlotOk(c, x, c.elems[x]);
    RisesSame(c.pendq, c.elems, c'.elems);
    forall i, j | 0 <= i < j < |c'.pendq| ensures c'.elems[c'.pendq[i]].order < c'.elems[c'.pendq[j]].order {
      assert c.pendq[i] in c.pendq && SlotOk(c, c.pendq[i], c.elems[c.pendq[i]]);
      if j < |c.pendq| {
        assert c'.pendq[j] == c.pendq[j];
      }
    }
  }

  // Dequeue

  lemma DequeueSlots(c: Ctxt, i: nat)
    requires SlotInv(c) && FirstPend(c, i)
    ensures SlotInv(Dequeued(c, i))
  {
    var c' := Dequeued(c, i);
    forall y | 0 <= y < |c'.elems| ensures SlotOk(c', y, c'.elems[y]) {
      DequeueSlot(c, i, y);
    }
    forall y, z | 0 <= y < |c'.elems| && 0 <= z < |c'.elems| ensures OrdersDiffer(y, z, c'.elems[y], c'.elems[z]) {
      assert OrdersDiffer(y, z, c.elems[y], c.elems[z]);
    }
  }

  lemma DequeueSlot(c: Ctxt, i: nat, y: Slot)
    requires FirstPend(c, i) && y < |c.elems| && SlotOk(c, y, c.elems[y])
    ensures SlotOk(Dequeued(c, i), y, Dequeued(c, i).elems[y])
  {
    CutCounts(c.pendq, i);
  }

  lemma DequeueBlocks(c: Ctxt, i: nat)
    requires BlockInv(c) && FirstPend(c, i)
    ensures BlockInv(Dequeued(c, i))
  {
    var c' := Dequeued(c, i);
    forall y | 0 <= y < |c'.elems| ensures BlockOk(c'.elems, c'.elems[y]) {
      assert BlockOk(c.elems, c.elems[y]);
      if y != c.pendq[i] {
        StillBehind(c.elems, c'.elems, c.elems[y]);
      }
    }
  }

  lemma DequeueFifo(c: Ctxt, i: nat)
    requires FifoInv(c) && FirstPend(c, i)
    ensures FifoInv(Dequeued(c, i))
  {
    var c' := Dequeued(c, i);
    forall j, k | 0 <= j < k < |c'.pendq| ensures c'.elems[c'.pendq[j]].order < c'.elems[c'.pendq[k]].order {
      var j0, k0 := if j < i then j else j + 1, if k < i then k else k + 1;
      assert c'.pendq[j] == c.pendq[j0] && c'.pendq[k] == c.pendq[k0];
    }
  }

  // Complete

  lemma CompleteSlots(c: Ctxt, x: Slot)
    requires SlotInv(c) && x < |c.elems| && !c.elems[x].status.Free?
    ensures SlotInv(Completed(c, x))
  {
    var c' := Completed(c, x);
    DropInRange(c.pendq, x, c.elems);
    DropInRange(c.busyq, x, c.elems);
    forall y | 0 <= y < |c'.elems| ensures SlotOk(c', y, c'.elems[y]) {
      CompletedElem(c, x, y);
      CompleteSlot(c, x, y);
    }
    CompleteOrders(c, x);
  }

  lemma CompleteSlot(c: Ctxt, x: Slot, y: Slot)
    requires x < |c.elems| && !c.elems[x].status.Free? && y < |c.elems|
    requires SlotOk(c, x, c.elems[x]) && SlotOk(c, y, c.elems[y])
    requires var e, e' := c.elems[y], Completed(c, x).elems[y];
             if y == x then e'.status.Free?
             else e' == if Queued(e) && e.req.offset == c.elems[x].block then e.(status := Pend) else e
    ensures SlotOk(Completed(c, x), y, Completed(c, x).elems[y])
  {
    DropCounts(c.pendq, x);
    DropCounts(c.busyq, x);
  }

  lemma CompleteOrders(c: Ctxt, x: Slot)
    requires SlotInv(c) && x < |c.elems| && !c.elems[x].status.Free?
    ensures var es := Completed(c, x).elems;
            forall y, z :: 0 <= y < |es| && 0 <= z < |es| ==> OrdersDiffer(y, z, es[y], es[z])
  {
    var es := Completed(c, x).elems;
    forall y, z | 0 <= y < |es| && 0 <= z < |es| ensures OrdersDiffer(y, z, es[y], es[z]) {
      assert OrdersDiffer(y, z, c.elems[y], c.elems[z]);
      CompletedElem(c, x, y);
      CompletedElem(c, x, z);
    }
  }

  /** What completing x does to another element: a request held back behind x may run. */
  lemma CompletedElem(c: Ctxt, x: Slot, y: Slot)
    requires SlotInv(c) && x < |c.elems| && !c.elems[x].status.Free? && y < |c.elems|
    ensures var e, e' := c.elems[y], Completed(c, x).elems[y];
            if y == x then e'.status.Free?
            else e' == if Queued(e) && e.req.offset == c.elems[x].block then e.(status := Pend) else e
  {
    assert SlotOk(c, y, c.elems[y]) && SlotOk(c, x, c.elems[x]);
  }

  lemma CompleteBlocks(c: Ctxt, x: Slot)
    requires SlotInv(c) && BlockInv(c) && x < |c.elems| && !c.elems[x].status.Free?
    ensures BlockInv(Completed(c, x))
  {
    var c' := Completed(c, x);
    forall y | 0 <= y < |c'.elems| ensures BlockOk(c'.elems, c'.elems[y]) {
      assert BlockOk(c.elems, c.elems[y]);
      CompletedElem(c, x, y);
      if c'.elems[y].status.Block? {
        var z :| 0 <= z < |c.elems| && Behind(c.elems[y], c.elems[z]);
        CompletedElem(c, x, z);
        assert Behind(c'.elems[y], c'.elems[z]);
      }
    }
  }

  lemma CompleteFifo(c: Ctxt, x: Slot)
    requires SlotInv(c) && FifoInv(c) && x < |c.elems| && !c.elems[x].status.Free?
    ensures FifoInv(Completed(c, x))
  {
    var c' := Completed(c, x);
    CompleteSlots(c, x);
    DropRises(c.pendq, x, c.elems);
    forall y | y in c'.pendq && y < |c.elems| ensures c'.elems[y].order == c.elems[y].order {
      CompletedElem(c, x, y);
    }
    RisesSame(c'.pendq, c.elems, c'.elems);
  }

  // Work done

  function Finished(c: Ctxt, x: Slot): Ctxt
    requires x < |c.elems|
  {
    c.(elems := c.elems[x := c.elems[x].(status := Done)])
  }

  lemma FinishKeeps(c: Ctxt, x: Slot)
    requires SlotInv(c) && BlockInv(c) && FifoInv(c) && x < |c.elems| && c.elems[x].status.Busy?
    ensures SlotInv(Finished(c, x)) && BlockInv(Finished(c, x)) && FifoInv(Finished(c, x))
  {
    var c' := Finished(c, x);
    FinishSlots(c, x);
    forall y | 0 <= y < |c'.elems| ensures BlockOk(c'.elems, c'.elems[y]) {
      assert BlockOk(c.elems, c.elems[y]);
      if y != x {
        StillBehind(c.elems, c'.elems, c.elems[y]);
      }
    }
  }

  lemma FinishSlots(c: Ctxt, x: Slot)
    requires SlotInv(c) && x < |c.elems| && c.elems[x].status.Busy?
    ensures SlotInv(Finished(c, x))
  {
    var c' := Finished(c, x);
    forall y | 0 <= y < |c'.elems| ensures SlotOk(c', y, c'.elems[y]) {
      assert SlotOk(c, y, c.elems[y]);
    }
    forall y, z | 0 <= y < |c'.elems| && 0 <= z < |c'.elems| ensures OrdersDiffer(y, z, c'.elems[y], c'.elems[z]) {
      assert OrdersDiffer(y, z, c.elems[y], c.elems[z]);
    }
  }

  // Progress of the queues

  /** Following the requests a request waits behind ends at one that may run, or is running. */
  lemma {:induction false} Runnable(c: Ctxt, x: Slot)
    requires SlotInv(c) && BlockInv(c) && c.busyq == [] && x < |c.elems| && !c.elems[x].status.Free?
    ensures HasPend(c.pendq, c.elems)
    decreases c.elems[x].order
  {
    assert SlotOk(c, x, c.elems[x]);
    if c.elems[x].status.Pend? {
      assert x in c.pendq;
    } else {
      assert BlockOk(c.elems, c.elems[x]);
      var y :| 0 <= y < |c.elems| && Behind(c.elems[x], c.elems[y]);
      Runnable(c, y);
    }
  }

  lemma PendingIsQueued(c: Ctxt, i: nat)
    requires SlotInv(c) && i < |c.pendq|
    ensures Queued(c.elems[c.pendq[i]])
  {
    assert c.pendq[i] in c.pendq && SlotOk(c, c.pendq[i], c.elems[c.pendq[i]]);
  }

  lemma BusyIsActive(c: Ctxt, i: nat)
    requires SlotInv(c) && i < |c.busyq|
    ensures Active(c.elems[c.busyq[i]])
  {
    assert c.busyq[i] in c.busyq && SlotOk(c, c.busyq[i], c.elems[c.busyq[i]]);
  }

  lemma EmptyIsFree(c: Ctxt)
    requires SlotInv(c)
    ensures Empty(c) <==> AllFree(c.elems)
  {
    if c.pendq != [] {
      PendingIsQueued(c, 0);
    } else if c.busyq != [] {
      BusyIsActive(c, 0);
    } else {
      forall x | 0 <= x < |c.elems| ensures c.elems[x].status.Free? {
        assert SlotOk(c, x, c.elems[x]);
      }
    }
  }

  ghost predicate CtxtInv(c: Ctxt) {
    SlotInv(c) && BlockInv(c) && FifoInv(c)
  }

  lemma InitEstablishes(s: State)
    requires Init(s)
    ensures Inv(s)
  {
    InitSlots(s.c);
    assert SomeAwake(s.workers) by {
      assert s.workers[0].Awake();
    }
  }

  lemma InitSlots(c: Ctxt)
    requires c == Ctxt(seq(MAX_REQ, i => i), [], [], c.elems, 0) && |c.elems| == MAX_REQ && AllFree(c.elems)
    ensures SlotInv(c)
  {
    forall x | 0 <= x < MAX_REQ ensures SlotOk(c, x, c.elems[x]) {
      CountRange(MAX_REQ, x);
    }
  }

  lemma {:induction false} CountRange(n: nat, x: nat)
    ensures multiset(seq(n, i => i))[x] == if x < n then 1 else 0
  {
    if n > 0 {
      CountRange(n - 1, x);
      assert seq(n, i => i) == seq(n - 1, i => i) + [n - 1];
    }
  }

  // Requests

  lemma EnqueueKeeps(c: Ctxt, req: Req, op: Op)
    requires CtxtInv(c) && c.freeq != []
    ensures CtxtInv(Enqueued(c, req, op))
  {
    EnqueueSlots(c, req, op);
    EnqueueBlocks(c, req, op);
    EnqueueFifo(c, req, op);
  }

  lemma RequestWork(s: State, s': State, req: Req, op: Op, woken: nat)
    requires SlotInv(s.c) && WorkInv(s) && s.c.freeq != [] && DoRequest(s, s', req, op, woken)
    ensures WorkInv(s')
  {
    var x := s.c.freeq[0];
    assert SlotOk(s.c, x, s.c.elems[x]);
    assert forall w, y: nat :: 0 <= w < |s.workers| ==> (s'.workers[w].Has(y) <==> s.workers[w].Has(y));
    forall w | 0 <= w < |s'.workers| ensures WorkerOk(s'.workers[w], s'.c.elems) {
      assert WorkerOk(s.workers[w], s.c.elems);
    }
    forall w, v | 0 <= w < |s'.workers| && 0 <= v < |s'.workers| ensures Alone(w, v, s'.workers[w], s'.workers[v]) {
      assert Alone(w, v, s.workers[w], s.workers[v]);
    }
    forall y | 0 <= y < |s'.c.elems| ensures OwnedOk(s'.workers, y, s'.c.elems[y]) {
      assert OwnedOk(s.workers, y, s.c.elems[y]);
    }
  }

  lemma RequestWake(s: State, s': State, req: Req, op: Op, woken: nat)
    requires SlotInv(s.c) && WorkInv(s) && WakeInv(s) && s.c.freeq != [] && DoRequest(s, s', req, op, woken)
    ensures WakeInv(s')
  {
    if s'.c.elems[s.c.freeq[0]].status.Pend? {
      SignalWakes(s.workers, s'.workers, woken);
    } else {
      EmptyIsFree(s.c);
    }
  }

  /** A signal leaves someone awake, unless all have left. */
  lemma SignalWakes(ws: seq<Worker>, ws': seq<Worker>, woken: nat)
    requires |ws| == NUM_THR && Signals(ws, ws', woken) && forall w :: 0 <= w < |ws| ==> !ws[w].Exited?
    ensures SomeAwake(ws') && |ws'| == |ws| && forall w :: 0 <= w < |ws'| ==> !ws'[w].Exited?
  {
    if exists w :: 0 <= w < |ws| && ws[w].Sleeping? {
      assert ws'[woken].Awake();
    } else {
      assert ws'[0].Awake();
    }
  }

  lemma RequestOnce(s: State, s': State, req: Req, op: Op, woken: nat)
    requires SlotInv(s.c) && OnceInv(s) && s.c.freeq != [] && DoRequest(s, s', req, op, woken)
    ensures OnceInv(s')
  {
    var x := s.c.freeq[0];
    assert SlotOk(s.c, x, s.c.elems[x]) && EndedOk(s, s.c.accepted);
    forall y | 0 <= y < |s'.c.elems| ensures CountOk(s'.called, s'.cancelled, s'.c.elems[y]) {
      assert CountOk(s.called, s.cancelled, s.c.elems[y]);
    }
    forall n: nat ensures EndedOk(s', n) {
      assert EndedOk(s, n);
      if n == s.c.accepted {
        assert Carries(s'.c.elems[x], n);
      } else if n < s.c.accepted && s.called[n] + s.cancelled[n] == 0 {
        PresentKept(s.c.elems, s'.c.elems, n);
      }
    }
  }

  lemma PresentKept(elems: seq<Elem>, elems': seq<Elem>, n: nat)
    requires Present(elems, n) && |elems'| == |elems|
    requires forall x :: 0 <= x < |elems| && Carries(elems[x], n) ==> Carries(elems'[x], n)
    ensures Present(elems', n)
  {
    var x :| 0 <= x < |elems| && Carries(elems[x], n);
    assert Carries(elems'[x], n);
  }

  lemma RequestKeeps(s: State, s': State, req: Req, op: Op, woken: nat)
    requires Inv(s) && DoRequest(s, s', req, op, woken)
    ensures Inv(s')
  {
    if s.c.freeq != [] {
      EnqueueKeeps(s.c, req, op);
      RequestWork(s, s', req, op, woken);
      RequestWake(s, s', req, op, woken);
      RequestOnce(s, s', req, op, woken);
    }
  }

  // Completions and cancels

  lemma CompletedKeeps(c: Ctxt, x: Slot)
    requires CtxtInv(c) && x < |c.elems| && !c.elems[x].status.Free?
    ensures CtxtInv(Completed(c, x))
  {
    CompleteSlots(c, x);
    CompleteBlocks(c, x);
    CompleteFifo(c, x);
  }

  lemma CancelWork(s: State, s': State, id: int, i: nat)
    requires SlotInv(s.c) && WorkInv(s) && FirstReq(s.c, i, id) && DoCancel(s, s', id, i)
    ensures WorkInv(s')
  {
    var x := s.c.pendq[i];
    assert SlotOk(s.c, x, s.c.elems[x]);
    forall w | 0 <= w < |s'.workers| ensures WorkerOk(s'.workers[w], s'.c.elems) {
      assert WorkerOk(s.workers[w], s.c.elems);
      if s.workers[w].Running? || s.workers[w].Returning? {
        CompletedElem(s.c, x, s.workers[w].slot);
      }
    }
    forall y | 0 <= y < |s'.c.elems| ensures OwnedOk(s'.workers, y, s'.c.elems[y]) {
      assert OwnedOk(s.workers, y, s.c.elems[y]);
      CompletedElem(s.c, x, y);
    }
  }

  lemma CancelWake(s: State, s': State, id: int, i: nat)
    requires SlotInv(s.c) && WakeInv(s) && FirstReq(s.c, i, id) && DoCancel(s, s', id, i)
    ensures WakeInv(s')
  {
    assert SlotOk(s.c, s.c.pendq[i], s.c.elems[s.c.pendq[i]]);
  }

  lemma CancelOnce(s: State, s': State, id: int, i: nat)
    requires SlotInv(s.c) && OnceInv(s) && FirstReq(s.c, i, id) && DoCancel(s, s', id, i)
    ensures OnceInv(s')
  {
    var x := s.c.pendq[i];
    assert SlotOk(s.c, x, s.c.elems[x]);
    assert CountOk(s.called, s.cancelled, s.c.elems[x]);
    forall y | 0 <= y < |s'.c.elems| ensures CountOk(s'.called, s'.cancelled, s'.c.elems[y]) {
      assert CountOk(s.called, s.cancelled, s.c.elems[y]) && OrdersDiffer(x, y, s.c.elems[x], s.c.elems[y]);
      CompletedElem(s.c, x, y);
    }
    forall n: nat ensures EndedOk(s', n) {
      assert EndedOk(s, n);
      if n < s.c.accepted && n != s.c.elems[x].order && s.called[n] + s.cancelled[n] == 0 {
        CompletePresent(s.c, x, n);
      }
    }
  }

  lemma CompletePresent(c: Ctxt, x: Slot, n: nat)
    requires SlotInv(c) && x < |c.elems| && !c.elems[x].status.Free? && !Carries(c.elems[x], n) && Present(c.elems, n)
    ensures Present(Completed(c, x).elems, n)
  {
    forall y | 0 <= y < |c.elems| && Carries(c.elems[y], n) ensures Carries(Completed(c, x).elems[y], n) {
      CompletedElem(c, x, y);
    }
    PresentKept(c.elems, Completed(c, x).elems, n);
  }

  lemma CancelKeeps(s: State, s': State, id: int, i: nat)
    requires Inv(s) && DoCancel(s, s', id, i)
    ensures Inv(s')
  {
    if HasReq(s.c, id) {
      PendingIsQueued(s.c, i);
      CompletedKeeps(s.c, s.c.pendq[i]);
      CancelWork(s, s', id, i);
      CancelWake(s, s', id, i);
      CancelOnce(s, s', id, i);
    }
  }

  lemma CompleteWork(s: State, s': State, w: nat)
    requires SlotInv(s.c) && WorkInv(s) && DoComplete(s, s', w)
    ensures WorkInv(s')
  {
    var x := s.workers[w].slot;
    assert WorkerOk(s.workers[w], s.c.elems);
    forall v | 0 <= v < |s'.workers| ensures WorkerOk(s'.workers[v], s'.c.elems) {
      assert WorkerOk(s.workers[v], s.c.elems) && Alone(w, v, s.workers[w], s.workers[v]);
      if v != w && (s.workers[v].Running? || s.workers[v].Returning?) {
        CompletedElem(s.c, x, s.workers[v].slot);
      }
    }
    forall v, u | 0 <= v < |s'.workers| && 0 <= u < |s'.workers| ensures Alone(v, u, s'.workers[v], s'.workers[u]) {
      assert Alone(v, u, s.workers[v], s.workers[u]);
    }
    forall y | 0 <= y < |s'.c.elems| ensures OwnedOk(s'.workers, y, s'.c.elems[y]) {
      CompletedElem(s.c, x, y);
      OwnerKept(s.workers, s'.workers, w, y, s.c.elems[y], s'.c.elems[y]);
    }
  }

  /** Who owns an active element still does when only worker w, which has another, moves. */
  lemma OwnerKept(ws: seq<Worker>, ws': seq<Worker>, w: nat, y: Slot, e: Elem, e': Elem)
    requires OwnedOk(ws, y, e) && (Active(e') ==> Active(e)) && |ws'| == |ws| && w < |ws|
    requires forall v :: 0 <= v < |ws| && v != w ==> ws'[v] == ws[v]
    requires Active(e') && ws[w].Has(y) ==> ws'[w].Has(y)
    ensures OwnedOk(ws', y, e')
  {
    if Active(e') {
      var v :| 0 <= v < |ws| && ws[v].Has(y);
      assert ws'[v].Has(y);
    }
  }

  lemma CompleteWake(s: State, s': State, w: nat)
    requires WorkInv(s) && WakeInv(s) && DoComplete(s, s', w)
    ensures WakeInv(s')
  {
    assert WorkerOk(s.workers[w], s.c.elems);
    assert s'.workers[w].Awake();
  }

  lemma CompleteOnce(s: State, s': State, w: nat)
    requires SlotInv(s.c) && WorkInv(s) && OnceInv(s) && DoComplete(s, s', w)
    ensures OnceInv(s')
  {
    var x := s.workers[w].slot;
    assert WorkerOk(s.workers[w], s.c.elems);
    forall y | 0 <= y < |s'.c.elems| ensures CountOk(s'.called, s'.cancelled, s'.c.elems[y]) {
      assert CountOk(s.called, s.cancelled, s.c.elems[y]);
      CompletedElem(s.c, x, y);
    }
    forall n: nat ensures EndedOk(s', n) {
      assert EndedOk(s, n);
      if n < s.c.accepted && s.called[n] + s.cancelled[n] == 0 {
        CompletePresent(s.c, x, n);
      }
    }
  }

  lemma CompleteKeeps(s: State, s': State, w: nat)
    requires Inv(s) && DoComplete(s, s', w)
    ensures Inv(s')
  {
    assert WorkerOk(s.workers[w], s.c.elems);
    CompletedKeeps(s.c, s.workers[w].slot);
    CompleteWork(s, s', w);
    CompleteWake(s, s', w);
    CompleteOnce(s, s', w);
  }

  // Workers

  lemma DequeueCtxt(c: Ctxt, i: nat)
    requires CtxtInv(c) && FirstPend(c, i)
    ensures CtxtInv(Dequeued(c, i))
  {
    DequeueSlots(c, i);
    DequeueBlocks(c, i);
    DequeueFifo(c, i);
  }

  lemma DequeueWork(s: State, s': State, w: nat, i: nat)
    requires WorkInv(s) && DoDequeue(s, s', w, i)
    ensures WorkInv(s')
  {
    forall v | 0 <= v < |s'.workers| ensures WorkerOk(s'.workers[v], s'.c.elems) {
      assert WorkerOk(s.workers[v], s.c.elems);
    }
    forall v, u | 0 <= v < |s'.workers| && 0 <= u < |s'.workers| ensures Alone(v, u, s'.workers[v], s'.workers[u]) {
      assert Alone(v, u, s.workers[v], s.workers[u]) && WorkerOk(s.workers[v], s.c.elems) && WorkerOk(s.workers[u], s.c.elems);
    }
    forall y | 0 <= y < |s'.c.elems| ensures OwnedOk(s'.workers, y, s'.c.elems[y]) {
      if y == s.c.pendq[i] {
        assert s'.workers[w].Has(y);
      } else {
        OwnerKept(s.workers, s'.workers, w, y, s.c.elems[y], s'.c.elems[y]);
      }
    }
  }

  lemma DequeueRest(s: State, s': State, w: nat, i: nat)
    requires SlotInv(s.c) && WakeInv(s) && OnceInv(s) && DoDequeue(s, s', w, i)
    ensures WakeInv(s') && OnceInv(s')
  {
    assert s'.workers[w].Awake();
    forall y | 0 <= y < |s'.c.elems| ensures CountOk(s'.called, s'.cancelled, s'.c.elems[y]) {
      assert CountOk(s.called, s.cancelled, s.c.elems[y]);
    }
    forall n: nat ensures EndedOk(s', n) {
      assert EndedOk(s, n);
      if Present(s.c.elems, n) {
        PresentKept(s.c.elems, s'.c.elems, n);
      }
    }
  }

  lemma DequeueKeeps(s: State, s': State, w: nat, i: nat)
    requires Inv(s) && DoDequeue(s, s', w, i)
    ensures Inv(s')
  {
    DequeueCtxt(s.c, i);
    DequeueWork(s, s', w, i);
    DequeueRest(s, s', w, i);
  }

  lemma ProcWork(s: State, s': State, w: nat)
    requires WorkInv(s) && DoProc(s, s', w)
    ensures WorkInv(s')
  {
    forall v | 0 <= v < |s'.workers| ensures WorkerOk(s'.workers[v], s'.c.elems) {
      assert WorkerOk(s.workers[v], s.c.elems) && Alone(v, w, s.workers[v], s.workers[w]);
    }
    forall v, u | 0 <= v < |s'.workers| && 0 <= u < |s'.workers| ensures Alone(v, u, s'.workers[v], s'.workers[u]) {
      assert Alone(v, u, s.workers[v], s.workers[u]);
    }
    forall y | 0 <= y < |s'.c.elems| ensures OwnedOk(s'.workers, y, s'.c.elems[y]) {
      if y == s.workers[w].slot {
        assert s'.workers[w].Has(y);
      } else {
        OwnerKept(s.workers, s'.workers, w, y, s.c.elems[y], s'.c.elems[y]);
      }
    }
  }

  lemma ProcRest(s: State, s': State, w: nat)
    requires SlotInv(s.c) && WorkInv(s) && WakeInv(s) && OnceInv(s) && DoProc(s, s', w)
    ensures WakeInv(s') && OnceInv(s')
  {
    var x := s.workers[w].slot;
    assert WorkerOk(s.workers[w], s.c.elems);
    assert s'.workers[w].Awake();
    assert CountOk(s.called, s.cancelled, s.c.elems[x]);
    forall y | 0 <= y < |s'.c.elems| ensures CountOk(s'.called, s'.cancelled, s'.c.elems[y]) {
      assert CountOk(s.called, s.cancelled, s.c.elems[y]) && OrdersDiffer(x, y, s.c.elems[x], s.c.elems[y]);
    }
    forall n: nat ensures EndedOk(s', n) {
      assert EndedOk(s, n) && SlotOk(s.c, x, s.c.elems[x]);
      if n != s.c.elems[x].order && Present(s.c.elems, n) {
        PresentKept(s.c.elems, s'.c.elems, n);
      }
    }
  }

  lemma ProcKeeps(s: State, s': State, w: nat)
    requires Inv(s) && DoProc(s, s', w)
    ensures Inv(s')
  {
    assert WorkerOk(s.workers[w], s.c.elems);
    FinishKeeps(s.c, s.workers[w].slot);
    ProcWork(s, s', w);
    ProcRest(s, s', w);
  }

  /** A worker that finds nothing to run while requests are outstanding is not the last one awake. */
  lemma OtherAwake(s: State, w: nat)
    requires SlotInv(s.c) && BlockInv(s.c) && WorkInv(s) && w < |s.workers| && s.workers[w].Looping?
    requires !HasPend(s.c.pendq, s.c.elems) && !AllFree(s.c.elems)
    ensures exists v :: 0 <= v < |s.workers| && v != w && s.workers[v].Awake()
  {
    var x :| 0 <= x < |s.c.elems| && !s.c.elems[x].status.Free?;
    if s.c.busyq == [] {
      Runnable(s.c, x);
    } else {
      var y := s.c.busyq[0];
      BusyIsActive(s.c, 0);
      assert OwnedOk(s.workers, y, s.c.elems[y]);
      var v :| 0 <= v < |s.workers| && s.workers[v].Has(y);
      assert s.workers[v].Awake();
    }
  }

  lemma IdleWake(s: State, s': State, w: nat)
    requires SlotInv(s.c) && BlockInv(s.c) && WorkInv(s) && WakeInv(s) && DoIdle(s, s', w)
    ensures WakeInv(s')
  {
    EmptyIsFree(s.c);
    if !AllFree(s.c.elems) {
      OtherAwake(s, w);
      var v :| 0 <= v < |s.workers| && v != w && s.workers[v].Awake();
      assert s'.workers[v].Awake();
    }
  }

  /** Worker w moves between states in which it holds no element. */
  lemma HandsFree(s: State, s': State, w: nat)
    requires WorkInv(s) && w < |s.workers| && s'.c == s.c
    requires |s'.workers| == |s.workers| && s'.workers == s.workers[w := s'.workers[w]]
    requires forall x: Slot :: !s.workers[w].Has(x) && !s'.workers[w].Has(x)
    requires !s'.workers[w].Running? && !s'.workers[w].Returning?
    ensures WorkInv(s')
  {
    forall v | 0 <= v < |s'.workers| ensures WorkerOk(s'.workers[v], s'.c.elems) {
      assert WorkerOk(s.workers[v], s.c.elems);
    }
    forall v, u | 0 <= v < |s'.workers| && 0 <= u < |s'.workers| ensures Alone(v, u, s'.workers[v], s'.workers[u]) {
      assert Alone(v, u, s.workers[v], s.workers[u]);
    }
    forall y | 0 <= y < |s'.c.elems| ensures OwnedOk(s'.workers, y, s'.c.elems[y]) {
      OwnerKept(s.workers, s'.workers, w, y, s.c.elems[y], s'.c.elems[y]);
    }
  }

  lemma OnceSame(s: State, s': State)
    requires OnceInv(s) && s'.c == s.c && s'.called == s.called && s'.cancelled == s.cancelled
    ensures OnceInv(s')
  {
    forall n: nat ensures EndedOk(s', n) {
      assert EndedOk(s, n);
    }
  }

  lemma IdleKeeps(s: State, s': State, w: nat)
    requires Inv(s) && DoIdle(s, s', w)
    ensures Inv(s')
  {
    HandsFree(s, s', w);
    IdleWake(s, s', w);
    OnceSame(s, s');
  }

  lemma SpuriousWake(s: State, s': State, w: nat)
    requires WakeInv(s) && DoSpurious(s, s', w)
    ensures WakeInv(s')
  {
    assert s'.workers[w].Awake();
  }

  lemma SpuriousKeeps(s: State, s': State, w: nat)
    requires Inv(s) && DoSpurious(s, s', w)
    ensures Inv(s')
  {
    HandsFree(s, s', w);
    SpuriousWake(s, s', w);
    OnceSame(s, s');
  }

  // Pause, resume and close

  lemma PauseKeeps(s: State, s': State)
    requires Inv(s) && DoPause(s, s')
    ensures Inv(s')
  {
    EmptyIsFree(s.c);
    OnceSame(s, s');
  }

  lemma FlagKeeps(s: State, s': State)
    requires Inv(s) && (DoResume(s, s') || DoMark(s, s'))
    ensures Inv(s')
  {
    OnceSame(s, s');
  }

  lemma AnnounceWork(s: State, s': State)
    requires WorkInv(s) && DoAnnounce(s, s')
    ensures WorkInv(s')
  {
    assert forall w, y: nat :: 0 <= w < |s.workers| ==> (s'.workers[w].Has(y) <==> s.workers[w].Has(y));
    forall v | 0 <= v < |s'.workers| ensures WorkerOk(s'.workers[v], s'.c.elems) {
      assert WorkerOk(s.workers[v], s.c.elems);
    }
    forall v, u | 0 <= v < |s'.workers| && 0 <= u < |s'.workers| ensures Alone(v, u, s'.workers[v], s'.workers[u]) {
      assert Alone(v, u, s.workers[v], s.workers[u]);
    }
    forall y | 0 <= y < |s'.c.elems| ensures OwnedOk(s'.workers, y, s'.c.elems[y]) {
      assert OwnedOk(s.workers, y, s.c.elems[y]);
    }
  }

  lemma AnnounceWake(s: State, s': State)
    requires WakeInv(s) && DoAnnounce(s, s')
    ensures WakeInv(s')
  {
    if SomeAwake(s.workers) {
      var w :| 0 <= w < |s.workers| && s.workers[w].Awake();
      assert s'.workers[w].Awake();
    }
  }

  lemma AnnounceKeeps(s: State, s': State)
    requires Inv(s) && DoAnnounce(s, s')
    ensures Inv(s')
  {
    AnnounceWork(s, s');
    AnnounceWake(s, s');
    OnceSame(s, s');
  }

  lemma StepKeeps(s: State, s': State, step: Step)
    requires Inv(s) && NextStep(s, s', step)
    ensures Inv(s')
  {
    match step
    case RequestStep(req, op, woken) => RequestKeeps(s, s', req, op, woken);
    case CancelStep(id, i) => CancelKeeps(s, s', id, i);
    case DequeueStep(w, i) => DequeueKeeps(s, s', w, i);
    case ProcStep(w) => ProcKeeps(s, s', w);
    case CompleteStep(w) => CompleteKeeps(s, s', w);
    case IdleStep(w) => IdleKeeps(s, s', w);
    case SpuriousStep(w) => SpuriousKeeps(s, s', w);
    case PauseStep => PauseKeeps(s, s');
    case ResumeStep => FlagKeeps(s, s');
    case MarkStep => FlagKeeps(s, s');
    case AnnounceStep => AnnounceKeeps(s, s');
  }
}
