/** The invariant of the block backend's queues and workers. */
module BlockInvariant {
  import opened BlockQueue
  import opened BlockProtocol

  predicate Queued(e: Elem) { e.status.Block? || e.status.Pend? }

  predicate Active(e: Elem) { e.status.Busy? || e.status.Done? }

  /** Each slot is in exactly the queue its status names, once. */
  predicate SlotOk(c: Ctxt, x: Slot, e: Elem) {
    && multiset(c.freeq)[x] == (if e.status.Free? then 1 else 0)
    && multiset(c.pendq)[x] == (if Queued(e) then 1 else 0)
    && multiset(c.busyq)[x] == (if Active(e) then 1 else 0)
    && (!e.status.Free? ==> e.order < c.accepted)
  }

  ghost predicate SlotInv(c: Ctxt) {
    && Shape(c)
    && (forall x :: 0 <= x < |c.elems| ==> SlotOk(c, x, c.elems[x]))
    && (forall x, y :: 0 <= x < |c.elems| && 0 <= y < |c.elems| ==> OrdersDiffer(x, y, c.elems[x], c.elems[y]))
  }

  predicate OrdersDiffer(x: Slot, y: Slot, e: Elem, f: Elem) {
    x != y && !e.status.Free? && !f.status.Free? ==> e.order != f.order
  }

  /** e waits behind f: f came earlier, is outstanding, and ends where e starts. */
  predicate Behind(e: Elem, f: Elem) {
    !f.status.Free? && f.order < e.order && f.block == e.req.offset
  }

  ghost predicate BlockOk(elems: seq<Elem>, e: Elem) {
    e.status.Block? ==> exists y :: 0 <= y < |elems| && Behind(e, elems[y])
  }

  ghost predicate BlockInv(c: Ctxt) {
    forall x :: 0 <= x < |c.elems| ==> BlockOk(c.elems, c.elems[x])
  }

  /** The pending queue is in order of arrival. */
  ghost predicate FifoInv(c: Ctxt) {
    Shape(c) && forall i, j :: 0 <= i < j < |c.pendq| ==> c.elems[c.pendq[i]].order < c.elems[c.pendq[j]].order
  }

  predicate WorkerOk(W: Worker, elems: seq<Elem>) {
    match W
    case Running(x) => x < |elems| && elems[x].status.Busy?
    case Returning(x) => x < |elems| && elems[x].status.Done?
    case _ => true
  }

  predicate Alone(w: nat, v: nat, W: Worker, V: Worker) {
    w != v && (W.Running? || W.Returning?) ==> !V.Has(W.slot)
  }

  ghost predicate OwnedOk(ws: seq<Worker>, x: Slot, e: Elem) {
    Active(e) ==> exists w :: 0 <= w < |ws| && ws[w].Has(x)
  }

  ghost predicate WorkInv(s: State) {
    && |s.workers| == NUM_THR
    && (forall w :: 0 <= w < |s.workers| ==> WorkerOk(s.workers[w], s.c.elems))
    && (forall w, v :: 0 <= w < |s.workers| && 0 <= v < |s.workers| ==> Alone(w, v, s.workers[w], s.workers[v]))
    && (forall x :: 0 <= x < |s.c.elems| ==> OwnedOk(s.workers, x, s.c.elems[x]))
  }

  predicate SomeAwake(ws: seq<Worker>) {
    exists w :: 0 <= w < |ws| && ws[w].Awake()
  }

  /** No request is outstanding. */
  predicate AllFree(elems: seq<Elem>) {
    forall x :: 0 <= x < |elems| ==> elems[x].status.Free?
  }

  /** Whoever waits has an awake worker to wait for. */
  ghost predicate WakeInv(s: State) {
    && (AllFree(s.c.elems) || SomeAwake(s.workers))
    && (s.pauser.Waiting? ==> SomeAwake(s.workers))
    && (s.pauser.Paused? ==> AllFree(s.c.elems))
    && (s.closing.Announced? ==> forall w :: 0 <= w < |s.workers| ==> !s.workers[w].Sleeping?)
    && (s.closing.Open? ==> forall w :: 0 <= w < |s.workers| ==> !s.workers[w].Exited?)
  }

  /** A request is called back or cancelled at most once, and only by leaving the queues. */
  predicate CountOk(called: multiset<nat>, cancelled: multiset<nat>, e: Elem) {
    && (Queued(e) || e.status.Busy? ==> called[e.order] == 0 && cancelled[e.order] == 0)
    && (e.status.Done? ==> called[e.order] == 1 && cancelled[e.order] == 0)
  }

  ghost predicate EndedOk(s: State, n: nat) {
    && s.called[n] + s.cancelled[n] <= 1
    && (n >= s.c.accepted ==> s.called[n] + s.cancelled[n] == 0)
    && (n < s.c.accepted && s.called[n] + s.cancelled[n] == 0 ==> Present(s.c.elems, n))
  }

  ghost predicate Present(elems: seq<Elem>, n: nat) {
    exists x :: 0 <= x < |elems| && Carries(elems[x], n)
  }

  predicate Carries(e: Elem, n: nat) { (Queued(e) || e.status.Busy?) && e.order == n }

  ghost predicate OnceInv(s: State) {
    && (forall x :: 0 <= x < |s.c.elems| ==> CountOk(s.called, s.cancelled, s.c.elems[x]))
    && (forall n: nat :: EndedOk(s, n))
  }

  ghost predicate Inv(s: State) {
    SlotInv(s.c) && BlockInv(s.c) && FifoInv(s.c) && WorkInv(s) && WakeInv(s) && OnceInv(s)
  }
}
