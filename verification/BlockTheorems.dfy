/** What the block backend promises, over every run. */
module BlockTheorems {
  import opened BlockQueue
  import opened BlockProtocol
  import opened BlockInvariant
  import opened BlockProofs

  datatype Run = Run(states: seq<State>, steps: seq<Step>)

  ghost predicate StepAt(run: Run, i: nat)
    requires |run.states| == |run.steps| + 1 && i < |run.steps|
  {
    NextStep(run.states[i], run.states[i + 1], run.steps[i])
  }

  ghost predicate IsRun(run: Run) {
    && |run.states| == |run.steps| + 1 && Init(run.states[0])
    && (forall i {:trigger StepAt(run, i)} :: 0 <= i < |run.steps| ==> StepAt(run, i))
  }

  lemma {:induction false} RunInvariant(run: Run, k: nat)
    requires IsRun(run) && k < |run.states|
    ensures Inv(run.states[k])
  {
    if k == 0 {
      InitEstablishes(run.states[0]);
    } else {
      RunInvariant(run, k - 1);
      assert StepAt(run, k - 1);
      StepKeeps(run.states[k - 1], run.states[k], run.steps[k - 1]);
    }
  }

  /** A request is held back only behind an outstanding one that came before it and ends where it
      starts; so if requests are pending and none is running, one of them may run. */
  lemma HeldBack(run: Run, k: nat)
    requires IsRun(run) && k < |run.states|
    ensures var c := run.states[k].c;
            && Shape(c)
            && (forall x :: 0 <= x < |c.elems| && c.elems[x].status.Block? ==>
                  exists y :: 0 <= y < |c.elems| && Behind(c.elems[x], c.elems[y]))
            && (c.pendq != [] && c.busyq == [] ==> HasPend(c.pendq, c.elems))
  {
    var c := run.states[k].c;
    RunInvariant(run, k);
    forall x | 0 <= x < |c.elems| && c.elems[x].status.Block? ensures exists y :: 0 <= y < |c.elems| && Behind(c.elems[x], c.elems[y]) {
      assert BlockOk(c.elems, c.elems[x]);
    }
    if c.pendq != [] && c.busyq == [] {
      PendingIsQueued(c, 0);
      Runnable(c, c.pendq[0]);
    }
  }

  /** The request a worker takes is the oldest that may run. */
  lemma OldestFirst(run: Run, k: nat, i: nat, x: Slot)
    requires IsRun(run) && k < |run.states| && FirstPend(run.states[k].c, i)
    requires x < |run.states[k].c.elems| && run.states[k].c.elems[x].status.Pend?
    ensures var c := run.states[k].c; c.elems[c.pendq[i]].order <= c.elems[x].order
  {
    var c := run.states[k].c;
    RunInvariant(run, k);
    assert SlotOk(c, x, c.elems[x]);
    assert x in c.pendq;
    var j :| 0 <= j < |c.pendq| && c.pendq[j] == x;
    assert FifoInv(c);
  }

  /** A caller is refused exactly when every one of the 136 elements is outstanding. */
  lemma RefusedWhenFull(run: Run, k: nat)
    requires IsRun(run) && k < |run.states|
    ensures var c := run.states[k].c;
            |c.elems| == 136 && (c.freeq == [] <==> forall x :: 0 <= x < |c.elems| ==> !c.elems[x].status.Free?)
  {
    var c := run.states[k].c;
    RunInvariant(run, k);
    if c.freeq == [] {
      forall x | 0 <= x < |c.elems| ensures !c.elems[x].status.Free? {
        assert SlotOk(c, x, c.elems[x]);
      }
    } else {
      assert c.freeq[0] in c.freeq && SlotOk(c, c.freeq[0], c.elems[c.freeq[0]]);
    }
  }

  /** Every accepted request is called back or cancelled at most once and never both; it is neither
      exactly as long as it is queued or running. */
  lemma ExactlyOnce(run: Run, k: nat, n: nat)
    requires IsRun(run) && k < |run.states| && n < run.states[k].c.accepted
    ensures var s := run.states[k];
            && s.called[n] + s.cancelled[n] <= 1
            && (s.called[n] + s.cancelled[n] == 0 <==> Present(s.c.elems, n))
  {
    var s := run.states[k];
    RunInvariant(run, k);
    assert EndedOk(s, n);
    if Present(s.c.elems, n) {
      var x :| 0 <= x < |s.c.elems| && Carries(s.c.elems[x], n);
      assert CountOk(s.called, s.cancelled, s.c.elems[x]);
    }
  }

  /** No wakeup is lost.  Completions and cancels that let a held-back request run wake nobody, and
      yet, when every worker is asleep or gone, nothing is outstanding, no pauser waits, and every
      accepted request has been called back or cancelled exactly once. */
  lemma NoLostWakeup(run: Run, k: nat)
    requires IsRun(run) && k < |run.states| && !SomeAwake(run.states[k].workers)
    ensures var s := run.states[k];
            && AllFree(s.c.elems) && Empty(s.c) && !s.pauser.Waiting?
            && (forall n: nat :: n < s.c.accepted ==> s.called[n] + s.cancelled[n] == 1)
  {
    var s := run.states[k];
    RunInvariant(run, k);
    EmptyIsFree(s.c);
    forall n: nat | n < s.c.accepted ensures s.called[n] + s.cancelled[n] == 1 {
      ExactlyOnce(run, k, n);
    }
  }

  /** `blockif_pause` returns only when nothing is outstanding, and nothing is until the resume;
      after the broadcast of `blockif_close` no worker sleeps. */
  lemma PausedAndClosed(run: Run, k: nat)
    requires IsRun(run) && k < |run.states|
    ensures var s := run.states[k];
            && (s.pauser.Paused? ==> Empty(s.c))
            && (s.closing.Announced? ==> forall w :: 0 <= w < |s.workers| ==> !s.workers[w].Sleeping?)
  {
    RunInvariant(run, k);
    EmptyIsFree(run.states[k].c);
  }

  // The backlog drains

  function Weight(e: Elem): nat {
    match e.status
    case Free => 0
    case Done => 2
    case Busy => 4
    case _ => 6
  }

  function Backlog(elems: seq<Elem>): nat {
    if elems == [] then 0 else Backlog(elems[..|elems| - 1]) + Weight(elems[|elems| - 1])
  }

  function Loopers(ws: seq<Worker>): nat {
    if ws == [] then 0 else Loopers(ws[..|ws| - 1]) + if ws[|ws| - 1].Looping? then 1 else 0
  }

  /** A bound on the steps the workers can take without new work. */
  function Work(s: State): nat { Backlog(s.c.elems) + Loopers(s.workers) }

  predicate WorkerStep(step: Step) {
    step.DequeueStep? || step.ProcStep? || step.CompleteStep? || step.IdleStep?
  }

  lemma {:induction false} BacklogUpdate(elems: seq<Elem>, x: nat, e: Elem)
    requires x < |elems|
    ensures Backlog(elems[x := e]) == Backlog(elems) - Weight(elems[x]) + Weight(e)
  {
    var n := |elems| - 1;
    if x == n {
      assert elems[x := e][..n] == elems[..n];
    } else {
      assert elems[x := e][..n] == elems[..n][x := e];
      BacklogUpdate(elems[..n], x, e);
    }
  }

  lemma {:induction false} BacklogSame(elems: seq<Elem>, elems': seq<Elem>)
    requires |elems'| == |elems| && forall i :: 0 <= i < |elems| ==> Weight(elems'[i]) == Weight(elems[i])
    ensures Backlog(elems') == Backlog(elems)
  {
    if elems != [] {
      BacklogSame(elems[..|elems| - 1], elems'[..|elems| - 1]);
    }
  }

  lemma {:induction false} LoopersUpdate(ws: seq<Worker>, w: nat, W: Worker)
    requires w < |ws|
    ensures Loopers(ws[w := W]) == Loopers(ws) - (if ws[w].Looping? then 1 else 0) + if W.Looping? then 1 else 0
  {
    var n := |ws| - 1;
    if w == n {
      assert ws[w := W][..n] == ws[..n];
    } else {
      assert ws[w := W][..n] == ws[..n][w := W];
      LoopersUpdate(ws[..n], w, W);
    }
  }

  lemma CompleteBacklog(c: Ctxt, x: Slot)
    requires SlotInv(c) && x < |c.elems| && c.elems[x].status.Done?
    ensures Backlog(Completed(c, x).elems) == Backlog(c.elems) - 2
  {
    var es, es' := c.elems, Completed(c, x).elems;
    forall y | 0 <= y < |es| ensures Weight(es'[y]) == Weight(es[x := es'[x]][y]) {
      CompletedElem(c, x, y);
    }
    CompletedElem(c, x, x);
    BacklogUpdate(es, x, es'[x]);
    BacklogSame(es[x := es'[x]], es');
  }

  lemma DequeueWorkUsed(s: State, s': State, w: nat, i: nat)
    requires DoDequeue(s, s', w, i)
    ensures Work(s') < Work(s)
  {
    LoopersUpdate(s.workers, w, s'.workers[w]);
    BacklogUpdate(s.c.elems, s.c.pendq[i], s'.c.elems[s.c.pendq[i]]);
  }

  lemma ProcWorkUsed(s: State, s': State, w: nat)
    requires DoProc(s, s', w) && WorkerOk(s.workers[w], s.c.elems)
    ensures Work(s') < Work(s)
  {
    LoopersUpdate(s.workers, w, s'.workers[w]);
    BacklogUpdate(s.c.elems, s.workers[w].slot, s'.c.elems[s.workers[w].slot]);
  }

  lemma CompleteWorkUsed(s: State, s': State, w: nat)
    requires SlotInv(s.c) && DoComplete(s, s', w) && WorkerOk(s.workers[w], s.c.elems)
    ensures Work(s') < Work(s)
  {
    LoopersUpdate(s.workers, w, s'.workers[w]);
    CompleteBacklog(s.c, s.workers[w].slot);
  }

  lemma IdleWorkUsed(s: State, s': State, w: nat)
    requires DoIdle(s, s', w)
    ensures Work(s') < Work(s)
  {
    LoopersUpdate(s.workers, w, s'.workers[w]);
  }

  /** Every step of a worker uses up some of the bound. */
  lemma WorkDecreases(s: State, s': State, step: Step)
    requires Inv(s) && NextStep(s, s', step) && WorkerStep(step)
    ensures Work(s') < Work(s)
  {
    assert step.ProcStep? || step.CompleteStep? ==> WorkerOk(s.workers[step.w], s.c.elems);
    match step
    case DequeueStep(w, i) => DequeueWorkUsed(s, s', w, i);
    case ProcStep(w) => ProcWorkUsed(s, s', w);
    case CompleteStep(w) => CompleteWorkUsed(s, s', w);
    case IdleStep(w) => IdleWorkUsed(s, s', w);
  }

  lemma WorkUsed(run: Run, k: nat)
    requires IsRun(run) && k < |run.steps| && WorkerStep(run.steps[k])
    ensures Work(run.states[k + 1]) < Work(run.states[k])
  {
    RunInvariant(run, k);
    assert StepAt(run, k);
    WorkDecreases(run.states[k], run.states[k + 1], run.steps[k]);
  }

  /** Without new requests, cancels or wakeups the workers take a bounded number of steps... */
  lemma {:induction false} Drains(run: Run, i: nat, j: nat)
    requires IsRun(run) && i <= j < |run.states| && forall k :: i <= k < j ==> WorkerStep(run.steps[k])
    ensures j - i <= Work(run.states[i]) - Work(run.states[j])
  {
    if i < j {
      Drains(run, i, j - 1);
      WorkUsed(run, j - 1);
    }
  }

  /** ... and an awake worker always has one to take.  With `NoLostWakeup`: the backlog drains. */
  lemma AwakeCanStep(run: Run, k: nat)
    requires IsRun(run) && k < |run.states| && SomeAwake(run.states[k].workers)
    ensures exists step, s' :: WorkerStep(step) && NextStep(run.states[k], s', step)
  {
    var s := run.states[k];
    RunInvariant(run, k);
    var w :| 0 <= w < |s.workers| && s.workers[w].Awake();
    assert WorkerOk(s.workers[w], s.c.elems);
    match s.workers[w]
    case Looping => LooperCanStep(s, w);
    case Running(x) =>
      var s' := SetWorker(s, w, Returning(x)).(
        c := s.c.(elems := s.c.elems[x := s.c.elems[x].(status := Done)]), called := s.called + multiset{s.c.elems[x].order});
      assert NextStep(s, s', ProcStep(w));
    case Returning(x) =>
      assert NextStep(s, SetWorker(s, w, Looping).(c := Completed(s.c, x)), CompleteStep(w));
  }

  lemma LooperCanStep(s: State, w: nat)
    requires Shape(s.c) && w < |s.workers| && s.workers[w].Looping?
    ensures exists step, s' :: WorkerStep(step) && NextStep(s, s', step)
  {
    if HasPend(s.c.pendq, s.c.elems) {
      var i := FindFirst(s.c, 0);
      assert NextStep(s, SetWorker(s, w, Running(s.c.pendq[i])).(c := Dequeued(s.c, i)), DequeueStep(w, i));
    } else {
      var s' := SetWorker(s, w, if s.closing.Open? then Sleeping else Exited).(
        pauser := if Empty(s.c) && s.pauser.Waiting? then Signalled else s.pauser);
      assert NextStep(s, s', IdleStep(w));
    }
  }

  lemma {:induction false} FindFirst(c: Ctxt, k: nat) returns (i: nat)
    requires Shape(c) && HasPend(c.pendq, c.elems) && k <= |c.pendq|
    requires forall j :: 0 <= j < k ==> !c.elems[c.pendq[j]].status.Pend?
    ensures FirstPend(c, i)
    decreases |c.pendq| - k
  {
    if k < |c.pendq| && c.elems[c.pendq[k]].status.Pend? {
      i := k;
    } else {
      i := FindFirst(c, k + 1);
    }
  }

  // Which requests are held back

  /** Added up from the front. */
  function Total(lens: seq<nat>): nat {
    if lens == [] then 0 else lens[0] + Total(lens[1..])
  }

  lemma {:induction false} SumSplit(a: seq<nat>, b: seq<nat>)
    ensures Sum(a + b) == Sum(a) + Sum(b)
  {
    if b == [] {
      assert a + b == a;
    } else {
      assert (a + b)[..|a + b| - 1] == a + b[..|b| - 1];
      SumSplit(a, b[..|b| - 1]);
    }
  }

  lemma {:induction false} SumIsTotal(lens: seq<nat>)
    ensures Sum(lens) == Total(lens)
  {
    if lens != [] {
      SumIsTotal(lens[1..]);
      SumSplit([lens[0]], lens[1..]);
      assert lens == [lens[0]] + lens[1..] && [lens[0]][..0] == [];
    }
  }

  /** The element is outstanding and its request ends at `off`: where its buffers do, or for a flush at the
      greatest offset there is. */
  predicate EndsThere(e: Elem, off: int) {
    !e.status.Free? && off == if e.op.Flush? then 0x7fff_ffff_ffff_ffff else e.req.offset + Total(e.req.lens)
  }

  ghost predicate EndOk(e: Elem) { !e.status.Free? ==> e.block == End(e.req, e.op) }

  ghost predicate EndInv(c: Ctxt) { forall x :: 0 <= x < |c.elems| ==> EndOk(c.elems[x]) }

  lemma EndMeans(e: Elem, off: int)
    requires EndOk(e)
    ensures EndsThere(e, off) <==> !e.status.Free? && e.block == off
  {
    SumIsTotal(e.req.lens);
  }

  lemma StepEnds(s: State, s': State, step: Step)
    requires Inv(s) && EndInv(s.c) && NextStep(s, s', step)
    ensures EndInv(s'.c)
  {
    match step
    case CompleteStep(w) =>
      assert WorkerOk(s.workers[w], s.c.elems);
      CompletedEnds(s.c, s.workers[w].slot);
    case CancelStep(id, i) =>
      if HasReq(s.c, id) {
        PendingIsQueued(s.c, i);
        CompletedEnds(s.c, s.c.pendq[i]);
      }
    case RequestStep(req, op, woken) => RequestEnds(s, s', req, op, woken);
    case _ => OtherEnds(s, s', step);
  }

  lemma CompletedEnds(c: Ctxt, x: Slot)
    requires SlotInv(c) && EndInv(c) && x < |c.elems| && !c.elems[x].status.Free?
    ensures EndInv(Completed(c, x))
  {
    var es := Completed(c, x).elems;
    forall y | 0 <= y < |es| ensures EndOk(es[y]) {
      CompletedElem(c, x, y);
      assert EndOk(c.elems[y]);
    }
  }

  lemma RequestEnds(s: State, s': State, req: Req, op: Op, woken: nat)
    requires EndInv(s.c) && DoRequest(s, s', req, op, woken)
    ensures EndInv(s'.c)
  {
    forall x | 0 <= x < |s'.c.elems| ensures EndOk(s'.c.elems[x]) {
      assert EndOk(s.c.elems[x]);
    }
  }

  lemma OtherEnds(s: State, s': State, step: Step)
    requires WorkInv(s) && EndInv(s.c) && NextStep(s, s', step) && !step.RequestStep? && !step.CompleteStep? && !step.CancelStep?
    ensures EndInv(s'.c)
  {
    assert step.ProcStep? ==> WorkerOk(s.workers[step.w], s.c.elems);
    forall x | 0 <= x < |s'.c.elems| ensures EndOk(s'.c.elems[x]) {
      assert EndOk(s.c.elems[x]);
    }
  }

  lemma {:induction false} RunEnds(run: Run, k: nat)
    requires IsRun(run) && k < |run.states|
    ensures EndInv(run.states[k].c)
  {
    if k > 0 {
      RunEnds(run, k - 1);
      RunInvariant(run, k - 1);
      assert StepAt(run, k - 1);
      StepEnds(run.states[k - 1], run.states[k], run.steps[k - 1]);
    }
  }

  lemma OutstandingQueued(c: Ctxt, off: int)
    requires SlotInv(c) && EndInv(c)
    ensures EndsAt(c.pendq, c.elems, off) || EndsAt(c.busyq, c.elems, off) <==> exists y :: 0 <= y < |c.elems| && EndsThere(c.elems[y], off)
  {
    if y :| 0 <= y < |c.elems| && EndsThere(c.elems[y], off) {
      EndMeans(c.elems[y], off);
      assert SlotOk(c, y, c.elems[y]);
      var q := if y in c.pendq then c.pendq else c.busyq;
      assert y in q;
      var i :| 0 <= i < |q| && q[i] == y;
      assert c.elems[q[i]].block == off;
    }
    if EndsAt(c.pendq, c.elems, off) || EndsAt(c.busyq, c.elems, off) {
      var q := if EndsAt(c.pendq, c.elems, off) then c.pendq else c.busyq;
      var i :| 0 <= i < |q| && c.elems[q[i]].block == off;
      assert q[i] in q && SlotOk(c, q[i], c.elems[q[i]]);
      EndMeans(c.elems[q[i]], off);
    }
  }

  /** An accepted request gets a free element.  It is held back if and only if some outstanding request ends
      where it starts, and may run at once otherwise; the other elements stay as they are. */
  lemma AcceptedHeld(run: Run, k: nat, req: Req, op: Op, woken: nat)
    requires IsRun(run) && k < |run.steps| && run.steps[k] == RequestStep(req, op, woken) && run.states[k].c.freeq != []
    ensures var c, c' := run.states[k].c, run.states[k + 1].c;
            var x := c.freeq[0];
            && x < |c.elems| == |c'.elems| && c.elems[x].status.Free?
            && c'.elems[x].req == req && c'.elems[x].op == op && c'.elems[x].order == c.accepted
            && c'.elems[x].status == (if exists y :: 0 <= y < |c.elems| && EndsThere(c.elems[y], req.offset) then Block else Pend)
            && forall y :: 0 <= y < |c.elems| && y != x ==> c'.elems[y] == c.elems[y]
  {
    var c := run.states[k].c;
    RunInvariant(run, k);
    RunEnds(run, k);
    assert StepAt(run, k);
    assert c.freeq[0] in c.freeq && SlotOk(c, c.freeq[0], c.elems[c.freeq[0]]);
    OutstandingQueued(c, req.offset);
  }

  /** With this step the request of slot y is completed, or taken back. */
  predicate Leaves(s: State, step: Step, y: Slot) {
    match step
    case CompleteStep(w) => w < |s.workers| && s.workers[w] == Returning(y)
    case CancelStep(id, i) => FirstReq(s.c, i, id) && s.c.pendq[i] == y
    case _ => false
  }

  /** What completing or taking back the request of slot x does: the slot is free, and of the queued requests
      exactly those that start where it ends may run, if they could not already. */
  lemma LeavingReleases(run: Run, k: nat, x: Slot)
    requires IsRun(run) && k < |run.steps| && Leaves(run.states[k], run.steps[k], x)
    ensures var c, c' := run.states[k].c, run.states[k + 1].c;
            && x < |c.elems| == |c'.elems| && !c.elems[x].status.Free? && c'.elems[x].status.Free?
            && forall y {:trigger c'.elems[y]} :: 0 <= y < |c.elems| && y != x ==>
                 c'.elems[y] == if Queued(c.elems[y]) && EndsThere(c.elems[x], c.elems[y].req.offset)
                                then c.elems[y].(status := Pend) else c.elems[y]
  {
    var s, c, c' := run.states[k], run.states[k].c, run.states[k + 1].c;
    RunInvariant(run, k);
    RunEnds(run, k);
    assert StepAt(run, k);
    LeavesBusy(s, run.steps[k], x);
    assert c' == Completed(c, x);
    CompletedElem(c, x, x);
    forall y | 0 <= y < |c.elems| && y != x
      ensures c'.elems[y] == if Queued(c.elems[y]) && EndsThere(c.elems[x], c.elems[y].req.offset) then c.elems[y].(status := Pend) else c.elems[y]
    {
      CompletedElem(c, x, y);
      EndMeans(c.elems[x], c.elems[y].req.offset);
    }
  }

  lemma LeavesBusy(s: State, step: Step, x: Slot)
    requires SlotInv(s.c) && WorkInv(s) && Leaves(s, step, x)
    ensures x < |s.c.elems| && !s.c.elems[x].status.Free?
  {
    if step.CompleteStep? {
      assert WorkerOk(s.workers[step.w], s.c.elems);
    } else {
      PendingIsQueued(s.c, step.i);
    }
  }

  /** A request that ends at `off` is completed or taken back. */
  ghost predicate Frees(s: State, step: Step, off: int) {
    exists y :: 0 <= y < |s.c.elems| && Leaves(s, step, y) && EndsThere(s.c.elems[y], off)
  }

  lemma CompletedHeld(c: Ctxt, y: Slot, x: Slot)
    requires SlotInv(c) && EndInv(c) && x < |c.elems| && y < |c.elems| && c.elems[x].status.Block? && x != y
    requires !c.elems[y].status.Free? && !EndsThere(c.elems[y], c.elems[x].req.offset)
    ensures Completed(c, y).elems[x] == c.elems[x]
  {
    EndMeans(c.elems[y], c.elems[x].req.offset);
  }

  lemma StepHeld(s: State, s': State, step: Step, x: Slot)
    requires Inv(s) && EndInv(s.c) && NextStep(s, s', step) && x < |s.c.elems| && s.c.elems[x].status.Block?
    requires x < |s'.c.elems| && !s'.c.elems[x].status.Free? && !Frees(s, step, s.c.elems[x].req.offset)
    ensures s'.c.elems[x] == s.c.elems[x]
  {
    match step
    case CompleteStep(w) =>
      assert WorkerOk(s.workers[w], s.c.elems) && Leaves(s, step, s.workers[w].slot);
      CompletedHeld(s.c, s.workers[w].slot, x);
    case CancelStep(id, i) =>
      if HasReq(s.c, id) {
        PendingIsQueued(s.c, i);
        assert Leaves(s, step, s.c.pendq[i]);
        if s.c.pendq[i] == x {
          CompletedElem(s.c, x, x);
        } else {
          CompletedHeld(s.c, s.c.pendq[i], x);
        }
      }
    case _ => OtherHeld(s, s', step, x);
  }

  lemma OtherHeld(s: State, s': State, step: Step, x: Slot)
    requires SlotInv(s.c) && WorkInv(s) && NextStep(s, s', step) && !step.CompleteStep? && !step.CancelStep?
    requires x < |s.c.elems| && s.c.elems[x].status.Block?
    ensures x < |s'.c.elems| && s'.c.elems[x] == s.c.elems[x]
  {
    assert SlotOk(s.c, x, s.c.elems[x]);
    if step.RequestStep? && s.c.freeq != [] {
      assert s.c.freeq[0] in s.c.freeq;
    }
    assert step.ProcStep? ==> WorkerOk(s.workers[step.w], s.c.elems);
  }

  /** Slot x is outstanding in the states from i to j. */
  ghost predicate Outstanding(run: Run, i: nat, j: nat, x: Slot)
    requires j < |run.states|
  {
    forall l {:trigger run.states[l]} :: i <= l <= j ==> x < |run.states[l].c.elems| && !run.states[l].c.elems[x].status.Free?
  }

  lemma {:induction false} HeldAlong(run: Run, i: nat, j: nat, x: Slot, e: Elem)
    requires IsRun(run) && i <= j < |run.states| && Outstanding(run, i, j, x) && e == run.states[i].c.elems[x] && e.status.Block?
    requires forall l :: i <= l < j ==> !Frees(run.states[l], run.steps[l], e.req.offset)
    ensures run.states[j].c.elems[x] == e
  {
    if i < j {
      HeldAlong(run, i, j - 1, x, e);
      HeldStep(run, j - 1, x, e);
    }
  }

  lemma HeldStep(run: Run, k: nat, x: Slot, e: Elem)
    requires IsRun(run) && k < |run.steps| && Outstanding(run, k, k + 1, x) && e == run.states[k].c.elems[x] && e.status.Block?
    requires !Frees(run.states[k], run.steps[k], e.req.offset)
    ensures run.states[k + 1].c.elems[x] == e
  {
    RunInvariant(run, k);
    RunEnds(run, k);
    assert StepAt(run, k);
    StepHeld(run.states[k], run.states[k + 1], run.steps[k], x);
  }

  /** A request that is held back in state i cannot be taken by a worker before some request that ends
      where it starts has been completed or taken back. */
  lemma HeldUntilFreed(run: Run, i: nat, j: nat, x: Slot, w: nat, p: nat)
    requires IsRun(run) && i <= j < |run.steps| && Outstanding(run, i, j, x) && run.states[i].c.elems[x].status.Block?
    requires run.steps[j] == DequeueStep(w, p) && p < |run.states[j].c.pendq| && run.states[j].c.pendq[p] == x
    ensures exists l :: i <= l < j && Frees(run.states[l], run.steps[l], run.states[i].c.elems[x].req.offset)
  {
    assert StepAt(run, j);
    assert run.states[j].c.elems[x].status.Pend?;
    if forall l :: i <= l < j ==> !Frees(run.states[l], run.steps[l], run.states[i].c.elems[x].req.offset) {
      HeldAlong(run, i, j, x, run.states[i].c.elems[x]);
    }
  }

  /** The request `id` is queued in slot x. */
  predicate Waits(c: Ctxt, x: Slot, id: int) { x < |c.elems| && Queued(c.elems[x]) && c.elems[x].req.id == id }

  lemma WaitsPending(c: Ctxt, id: int)
    requires SlotInv(c)
    ensures HasReq(c, id) <==> exists x :: 0 <= x < |c.elems| && Waits(c, x, id)
  {
    if HasReq(c, id) {
      var i :| 0 <= i < |c.pendq| && c.elems[c.pendq[i]].req.id == id;
      assert c.pendq[i] in c.pendq && SlotOk(c, c.pendq[i], c.elems[c.pendq[i]]);
      assert Waits(c, c.pendq[i], id);
    }
    if x :| 0 <= x < |c.elems| && Waits(c, x, id) {
      assert SlotOk(c, x, c.elems[x]) && x in c.pendq;
      var i :| 0 <= i < |c.pendq| && c.pendq[i] == x;
      assert c.elems[c.pendq[i]].req.id == id;
    }
  }

  /** A cancel takes back the oldest queued request of that identity, held back or not, and only that; with none
      queued it changes nothing. */
  lemma CancelTakesBack(run: Run, k: nat, id: int, i: nat)
    requires IsRun(run) && k < |run.steps| && run.steps[k] == CancelStep(id, i)
    ensures var s, s' := run.states[k], run.states[k + 1];
            if exists x :: 0 <= x < |s.c.elems| && Waits(s.c, x, id)
            then
              && i < |s.c.pendq| && Waits(s.c, s.c.pendq[i], id)
              && var e := s.c.elems[s.c.pendq[i]];
              && (forall y :: 0 <= y < |s.c.elems| && Waits(s.c, y, id) ==> e.order <= s.c.elems[y].order)
              && |s'.c.elems| == |s.c.elems| && s'.c.elems[s.c.pendq[i]].status.Free?
              && s'.called == s.called && s'.cancelled == s.cancelled + multiset{e.order}
            else s' == s
  {
    var s := run.states[k];
    RunInvariant(run, k);
    assert StepAt(run, k);
    WaitsPending(s.c, id);
    if HasReq(s.c, id) {
      OldestWaits(s.c, i, id);
      CompletedElem(s.c, s.c.pendq[i], s.c.pendq[i]);
    }
  }

  lemma OldestWaits(c: Ctxt, i: nat, id: int)
    requires SlotInv(c) && FifoInv(c) && FirstReq(c, i, id)
    ensures Waits(c, c.pendq[i], id) && forall y :: 0 <= y < |c.elems| && Waits(c, y, id) ==> c.elems[c.pendq[i]].order <= c.elems[y].order
  {
    PendingIsQueued(c, i);
    forall y | 0 <= y < |c.elems| && Waits(c, y, id) ensures c.elems[c.pendq[i]].order <= c.elems[y].order {
      assert SlotOk(c, y, c.elems[y]) && y in c.pendq;
      var j :| 0 <= j < |c.pendq| && c.pendq[j] == y;
    }
  }
}
