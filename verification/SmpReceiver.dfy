/** The receiving side: every step of a flush keeps the invariant. */
module SmpReceiver {
  import opened SmpFlush
  import opened SmpProtocol
  import opened SmpInvariant
  import opened SmpProofs

  /** What a step of CPU c may do to a record. */
  predicate Moved(c: CpuId, r: Rec, r': Rec) {
    || r' == r
    || (r.place == Queued(c) && r' == r.(place := Detached(c)))
    || (r.place == Detached(c) && r' == r.(locked := false, kind := Async, place := Home))
  }

  ghost predicate Moves(c: CpuId, csds: map<CsdId, Rec>, csds': map<CsdId, Rec>) {
    csds'.Keys == csds.Keys && forall id :: id in csds ==> Moved(c, csds[id], csds'[id])
  }

  /** CPU c alone moves, and moves only records that are its own. */
  ghost predicate OneCpu(s: State, s': State, c: CpuId) {
    && c in s.cpus && s'.cpus.Keys == s.cpus.Keys
    && s' == s.(cpus := s'.cpus, csds := s'.csds)
    && (forall d :: d in s.cpus && d != c ==> s'.cpus[d] == s.cpus[d])
    && s'.cpus[c].issued == s.cpus[c].issued && s'.cpus[c].since == s.cpus[c].since
    && (s'.cpus[c].queue == s.cpus[c].queue || s'.cpus[c].queue == [])
    && Moves(c, s.csds, s'.csds)
    && (forall id :: id in s'.csds ==> PlaceOk(c, s'.cpus[c], id, s'.csds[id].place))
    && CpuOk(c, s'.cpus[c], s'.csds, s'.calls)
    && KickOk(s', c)
  }

  lemma OneCpuKeeps(s: State, s': State, c: CpuId)
    requires Inv(s) && OneCpu(s, s', c)
    ensures Inv(s')
  {
    MovedRecs(s, s', c);
    MovedPlaces(s, s', c);
    MovedCpus(s, s', c);
    MovedThreads(s, s', c);
    MovedStacks(s, s', c);
    MovedKicks(s, s', c);
    MovedHeld(s, s', c);
    MovedOld(s, s', c);
  }

  lemma MovedHeld(s: State, s': State, c: CpuId)
    requires HeldInv(s) && OneCpu(s, s', c)
    ensures HeldInv(s')
  {
    forall id | id in s'.csds ensures HeldOk(s', id) {
      assert HeldOk(s, id) && Moved(c, s.csds[id], s'.csds[id]);
    }
  }

  lemma MovedOld(s: State, s': State, c: CpuId)
    requires OldInv(s) && OneCpu(s, s', c)
    ensures OldInv(s')
  {
    forall t, d, id | t in s'.threads && d in s'.cpus && id in s'.csds
      ensures OldOk(t, s'.threads[t], s'.cpus[d], id, s'.csds[id].func, s'.calls)
    {
      assert OldOk(t, s.threads[t], s.cpus[d], id, s.csds[id].func, s.calls) && Moved(c, s.csds[id], s'.csds[id]);
    }
  }

  lemma MovedRecs(s: State, s': State, c: CpuId)
    requires RecInv(s) && NumInv(s) && IssuedInv(s) && OneCpu(s, s', c)
    ensures RecInv(s') && NumInv(s') && IssuedInv(s')
  {
    forall id | id in s'.csds ensures RecOk(s'.csds[id], s'.cpus.Keys) {
      assert RecOk(s.csds[id], s.cpus.Keys) && Moved(c, s.csds[id], s'.csds[id]);
    }
  }

  lemma MovedPlaces(s: State, s': State, c: CpuId)
    requires PlaceInv(s) && OneCpu(s, s', c)
    ensures PlaceInv(s')
  {
    forall d, id | d in s'.cpus && id in s'.csds ensures PlaceOk(d, s'.cpus[d], id, s'.csds[id].place) {
      assert PlaceOk(d, s.cpus[d], id, s.csds[id].place) && Moved(c, s.csds[id], s'.csds[id]);
    }
  }

  /** What is in another CPU's queue does not move. */
  lemma MovedElsewhere(s: State, s': State, c: CpuId, d: CpuId)
    requires PlaceInv(s) && OneCpu(s, s', c) && d in s.cpus && d != c
    ensures forall id :: id in s.cpus[d].queue && id in s.csds ==> s'.csds[id] == s.csds[id]
  {
    forall id | id in s.cpus[d].queue && id in s.csds ensures s'.csds[id] == s.csds[id] {
      assert PlaceOk(d, s.cpus[d], id, s.csds[id].place) && Moved(c, s.csds[id], s'.csds[id]);
    }
  }

  lemma MovedCpus(s: State, s': State, c: CpuId)
    requires PlaceInv(s) && CpuInv(s) && OneCpu(s, s', c)
    ensures CpuInv(s')
  {
    forall d | d in s'.cpus ensures CpuOk(d, s'.cpus[d], s'.csds, s'.calls) {
      if d != c {
        MovedElsewhere(s, s', c, d);
        CpuFrame(d, s.cpus[d], s.csds, s.calls, s'.csds, s'.calls);
      }
    }
  }

  lemma MovedThreads(s: State, s': State, c: CpuId)
    requires RecInv(s) && ThreadInv(s) && OneCpu(s, s', c)
    ensures ThreadInv(s')
  {
    forall t | t in s'.threads ensures ThreadOk(t, s'.threads[t], s') {
      assert RecsKept(t, s.threads[t], s.csds, s'.csds) by {
        forall id | id in s.csds && (s.csds[id].place.Home? || !s.csds[id].locked) ensures s'.csds[id] == s.csds[id] {
          assert RecOk(s.csds[id], s.cpus.Keys) && Moved(c, s.csds[id], s'.csds[id]);
        }
      }
      ThreadFrame(t, s.threads[t], s, s');
    }
  }

  lemma MovedStacks(s: State, s': State, c: CpuId)
    requires StackInv(s) && OneCpu(s, s', c)
    ensures StackInv(s')
  {
    forall cpu | Stack(cpu) in s'.csds ensures StackOk(s'.threads[Task(cpu)], cpu, s'.csds[Stack(cpu)]) {
      assert Moved(c, s.csds[Stack(cpu)], s'.csds[Stack(cpu)]);
    }
  }

  lemma MovedKicks(s: State, s': State, c: CpuId)
    requires KickInv(s) && OneCpu(s, s', c)
    ensures KickInv(s')
  {
    forall d | d in s'.cpus ensures KickOk(s', d) {
      assert KickOk(s, d);
    }
  }

  /** The part of the invariant that speaks of one CPU. */
  ghost predicate LocalCpu(s: State, c: CpuId) {
    && c in s.cpus && CpuOk(c, s.cpus[c], s.csds, s.calls) && KickOk(s, c)
    && (forall id :: id in s.csds ==> PlaceOk(c, s.cpus[c], id, s.csds[id].place))
  }

  lemma LocalizeCpu(s: State, c: CpuId)
    requires Inv(s) && c in s.cpus
    ensures LocalCpu(s, c)
  {
  }

  // Entering and leaving

  /** The flusher moves without changing what is queued or planned. */
  lemma Idles(c: CpuId, C: CpuState, C': CpuState, csds: map<CsdId, Rec>, calls: map<int, Call>)
    requires CpuOk(c, C, csds, calls) && C'.Plan() == C.Plan() && C' == C.(ipi := C'.ipi, flush := C'.flush)
    ensures CpuOk(c, C', csds, calls)
  {
  }

  lemma IdlePlaces(c: CpuId, C: CpuState, C': CpuState, csds: map<CsdId, Rec>)
    requires forall id :: id in csds ==> PlaceOk(c, C, id, csds[id].place)
    requires C'.Plan() == C.Plan() && C' == C.(ipi := C'.ipi, flush := C'.flush)
    ensures forall id :: id in csds ==> PlaceOk(c, C', id, csds[id].place)
  {
    forall id | id in csds ensures PlaceOk(c, C', id, csds[id].place) {
      assert PlaceOk(c, C, id, csds[id].place);
    }
  }

  lemma EnterMoves(s: State, s': State, c: CpuId, byIpi: bool)
    requires LocalCpu(s, c) && DoEnter(s, s', c, byIpi)
    ensures OneCpu(s, s', c)
  {
    Idles(c, s.cpus[c], s'.cpus[c], s.csds, s.calls);
    IdlePlaces(c, s.cpus[c], s'.cpus[c], s.csds);
  }

  lemma EnterKeeps(s: State, s': State, c: CpuId, byIpi: bool)
    requires Inv(s) && DoEnter(s, s', c, byIpi)
    ensures Inv(s')
  {
    LocalizeCpu(s, c);
    EnterMoves(s, s', c, byIpi);
    OneCpuKeeps(s, s', c);
  }

  lemma LeaveMoves(s: State, s': State, c: CpuId)
    requires LocalCpu(s, c) && DoLeave(s, s', c)
    ensures OneCpu(s, s', c)
  {
    Idles(c, s.cpus[c], s'.cpus[c], s.csds, s.calls);
    IdlePlaces(c, s.cpus[c], s'.cpus[c], s.csds);
  }

  lemma LeaveKeeps(s: State, s': State, c: CpuId)
    requires Inv(s) && DoLeave(s, s', c)
    ensures Inv(s')
  {
    LocalizeCpu(s, c);
    LeaveMoves(s, s', c);
    OneCpuKeeps(s, s', c);
  }

  // Taking the queue

  lemma ReverseTotals(es: seq<Entry>)
    ensures multiset(Funcs(Reverse(es))) == multiset(Funcs(es)) && multiset(Ids(Reverse(es))) == multiset(Ids(es))
  {
    var r := Reverse(es);
    forall i | 0 <= i < |es| ensures Ids(r)[i] == Reverse(Ids(es))[i] && Funcs(r)[i] == Reverse(Funcs(es))[i] {
      var j := |es| - 1 - i;
      assert r[i] == es[j] && Ids(es)[j] == es[j].id && Funcs(es)[j] == es[j].func;
    }
    assert Ids(r) == Reverse(Ids(es)) && Funcs(r) == Reverse(Funcs(es));
    ReverseMultiset(Ids(es));
    ReverseMultiset(Funcs(es));
  }

  lemma ReverseOk(es: seq<Entry>, c: CpuId, ids: set<CsdId>, calls: map<int, Call>)
    requires forall i :: 0 <= i < |es| ==> EntryOk(es[i], c, ids, calls)
    ensures forall i :: 0 <= i < |Reverse(es)| ==> EntryOk(Reverse(es)[i], c, ids, calls)
  {
    forall i | 0 <= i < |es| ensures EntryOk(Reverse(es)[i], c, ids, calls) {
      assert Reverse(es)[i] == es[|es| - 1 - i];
    }
  }

  /** The trace of a detached queue. */
  lemma DetachedTrace(c: CpuId, C: CpuState, csds: map<CsdId, Rec>, calls: map<int, Call>)
    requires CpuOk(c, C, csds, calls)
    ensures var tr := FlushTrace(Reverse(Entries(C.queue, csds)));
            && TraceOk(tr, c, csds.Keys, calls)
            && Jobs(tr) == multiset(Funcs(Entries(C.queue, csds)))
            && Frees(tr) == multiset(C.queue)
  {
    var es := Entries(C.queue, csds);
    ReverseTotals(es);
    TraceTotals(Reverse(es));
    assert Ids(es) == C.queue;
    ReverseOk(es, c, csds.Keys, calls);
    FlushTraceOk(Reverse(es), c, csds.Keys, calls);
  }

  lemma DetachCpu(c: CpuId, C: CpuState, csds: map<CsdId, Rec>, csds': map<CsdId, Rec>, calls: map<int, Call>)
    requires CpuOk(c, C, csds, calls) && C.flush.Entered? && csds'.Keys == csds.Keys
    ensures CpuOk(c, C.(queue := [], flush := Draining(FlushTrace(Reverse(Entries(C.queue, csds))))), csds', calls)
  {
    DetachedTrace(c, C, csds, calls);
    assert Entries([], csds') == [] && Funcs([]) == [];
    var q := multiset(Funcs(Entries(C.queue, csds)));
    assert C.done + q + multiset{} == C.done + multiset{} + q;
  }

  lemma DetachPlaces(c: CpuId, C: CpuState, csds: map<CsdId, Rec>, calls: map<int, Call>, id: CsdId)
    requires CpuOk(c, C, csds, calls) && C.flush.Entered? && id in csds && PlaceOk(c, C, id, csds[id].place)
    ensures PlaceOk(c, C.(queue := [], flush := Draining(FlushTrace(Reverse(Entries(C.queue, csds))))), id,
                    if id in C.queue then Detached(c) else csds[id].place)
    ensures id in C.queue ==> csds[id].place == Queued(c)
  {
    DetachedTrace(c, C, csds, calls);
  }

  lemma DetachMoves(s: State, s': State, c: CpuId)
    requires LocalCpu(s, c) && DoDetach(s, s', c)
    ensures OneCpu(s, s', c)
  {
    DetachCpu(c, s.cpus[c], s.csds, s'.csds, s.calls);
    forall id | id in s.csds
      ensures PlaceOk(c, s'.cpus[c], id, s'.csds[id].place) && Moved(c, s.csds[id], s'.csds[id])
    {
      DetachPlaces(c, s.cpus[c], s.csds, s.calls, id);
    }
  }

  lemma DetachKeeps(s: State, s': State, c: CpuId)
    requires Inv(s) && DoDetach(s, s', c)
    ensures Inv(s')
  {
    LocalizeCpu(s, c);
    DetachMoves(s, s', c);
    OneCpuKeeps(s, s', c);
  }

  // Working through the trace

  /** The records after event e. */
  function After(e: Event, csds: map<CsdId, Rec>): map<CsdId, Rec> {
    if e.Ran? || e.id !in csds then csds
    else csds[e.id := csds[e.id].(locked := false, kind := Async, place := Home)]
  }

  function AfterCpu(C: CpuState): CpuState
    requires C.flush.Draining? && C.flush.plan != []
  {
    C.(flush := Draining(C.flush.plan[1..]), done := C.done + Job(C.flush.plan[0]))
  }

  lemma AdvanceCpu(c: CpuId, C: CpuState, csds: map<CsdId, Rec>, calls: map<int, Call>)
    requires CpuOk(c, C, csds, calls) && C.flush.Draining? && C.flush.plan != []
    ensures CpuOk(c, AfterCpu(C), csds, calls)
  {
    var tr := C.flush.plan;
    TraceOkTail(tr, c, csds.Keys, calls);
    var q := multiset(Funcs(Entries(C.queue, csds)));
    assert Jobs(tr) == Job(tr[0]) + Jobs(tr[1..]);
    assert C.done + q + (Job(tr[0]) + Jobs(tr[1..])) == (C.done + Job(tr[0])) + q + Jobs(tr[1..]);
  }

  lemma EventCpu(c: CpuId, C: CpuState, csds: map<CsdId, Rec>, calls: map<int, Call>)
    requires CpuOk(c, C, csds, calls) && C.flush.Draining? && C.flush.plan != []
    requires C.flush.plan[0].Ran? || C.flush.plan[0].id !in C.queue
    ensures CpuOk(c, AfterCpu(C), After(C.flush.plan[0], csds), calls)
  {
    AdvanceCpu(c, C, csds, calls);
    CpuFrame(c, AfterCpu(C), csds, calls, After(C.flush.plan[0], csds), calls);
  }

  /** The record that an event releases is one this CPU has detached; it goes home. */
  lemma EventPlaces(c: CpuId, C: CpuState, csds: map<CsdId, Rec>, id: CsdId)
    requires C.flush.Draining? && C.flush.plan != [] && id in csds && PlaceOk(c, C, id, csds[id].place)
    ensures PlaceOk(c, AfterCpu(C), id, After(C.flush.plan[0], csds)[id].place)
    ensures Moved(c, csds[id], After(C.flush.plan[0], csds)[id])
    ensures C.flush.plan[0].Ran? || C.flush.plan[0].id != id || id !in C.queue
  {
    var tr := C.flush.plan;
    assert Frees(tr) == Freed(tr[0]) + Frees(tr[1..]);
  }

  lemma EventShape(s: State, s': State, c: CpuId)
    requires DoEvent(s, s', c)
    ensures s' == s.(cpus := s.cpus[c := AfterCpu(s.cpus[c])], csds := After(s.cpus[c].flush.plan[0], s.csds))
  {
    assert s.cpus[c].done + multiset{} == s.cpus[c].done;
  }

  lemma EventRecs(s: State, c: CpuId)
    requires LocalCpu(s, c) && s.cpus[c].flush.Draining? && s.cpus[c].flush.plan != []
    ensures var csds' := After(s.cpus[c].flush.plan[0], s.csds);
            Moves(c, s.csds, csds') && forall id :: id in csds' ==> PlaceOk(c, AfterCpu(s.cpus[c]), id, csds'[id].place)
  {
    forall id | id in s.csds
      ensures var r' := After(s.cpus[c].flush.plan[0], s.csds)[id];
              PlaceOk(c, AfterCpu(s.cpus[c]), id, r'.place) && Moved(c, s.csds[id], r')
    {
      EventPlaces(c, s.cpus[c], s.csds, id);
    }
  }

  lemma EventMoves(s: State, s': State, c: CpuId)
    requires LocalCpu(s, c) && s.cpus[c].flush.Draining? && s.cpus[c].flush.plan != [] && s.cpus[c].flush.plan[0].id in s.csds
    requires s' == s.(cpus := s.cpus[c := AfterCpu(s.cpus[c])], csds := After(s.cpus[c].flush.plan[0], s.csds))
    ensures OneCpu(s, s', c)
  {
    EventRecs(s, c);
    EventPlaces(c, s.cpus[c], s.csds, s.cpus[c].flush.plan[0].id);
    EventCpu(c, s.cpus[c], s.csds, s.calls);
  }

  lemma EventKeeps(s: State, s': State, c: CpuId)
    requires Inv(s) && DoEvent(s, s', c)
    ensures Inv(s')
  {
    LocalizeCpu(s, c);
    EventShape(s, s', c);
    EventMoves(s, s', c);
    OneCpuKeeps(s, s', c);
  }

  // All steps

  lemma StartStepKeeps(s: State, s': State, step: Step)
    requires Inv(s) && NextStep(s, s', step) && (step.StartSingleStep? || step.StartManyStep?)
    ensures Inv(s')
  {
    match step
    case StartSingleStep(cpu, target, wait, n) => StartSingleKeeps(s, s', cpu, target, wait, n);
    case StartManyStep(cpu, mask, wait, want, n) => StartManyKeeps(s, s', cpu, mask, wait, want, n);
  }

  lemma AsyncStepKeeps(s: State, s': State, step: Step)
    requires Inv(s) && NextStep(s, s', step) && (step.StartEmbeddedStep? || step.WaitedStep?)
    ensures Inv(s')
  {
    match step
    case StartEmbeddedStep(t, k, target, kind, n) => StartEmbeddedKeeps(s, s', t, k, target, kind, n);
    case WaitedStep(t) => WaitedKeeps(s, s', t);
  }

  lemma ExecStepKeeps(s: State, s': State, step: Step)
    requires Inv(s) && NextStep(s, s', step) && (step.ExecStep? || step.SendStep?)
    ensures Inv(s')
  {
    match step
    case ExecStep(t) => ExecKeeps(s, s', t);
    case SendStep(t) => SendKeeps(s, s', t);
  }

  lemma LocalStepKeeps(s: State, s': State, step: Step)
    requires Inv(s) && NextStep(s, s', step) && (step.RunHereStep? || step.ManyLocalStep?)
    ensures Inv(s')
  {
    match step
    case RunHereStep(t) => RunHereKeeps(s, s', t);
    case ManyLocalStep(t) => ManyLocalKeeps(s, s', t);
  }

  lemma ManyLoopKeeps(s: State, s': State, step: Step)
    requires Inv(s) && NextStep(s, s', step) && (step.ManySkipStep? || step.ManyLockStep?)
    ensures Inv(s')
  {
    match step
    case ManySkipStep(t, c) => ManySkipKeeps(s, s', t, c);
    case ManyLockStep(t, c) => ManyLockKeeps(s, s', t, c);
  }

  lemma ManyQueueKeeps(s: State, s': State, step: Step)
    requires Inv(s) && NextStep(s, s', step) && (step.ManyPushStep? || step.ManySendStep?)
    ensures Inv(s')
  {
    match step
    case ManyPushStep(t) => ManyPushKeeps(s, s', t);
    case ManySendStep(t) => ManySendKeeps(s, s', t);
  }

  lemma ManyWaitKeeps(s: State, s': State, step: Step)
    requires Inv(s) && NextStep(s, s', step) && (step.ManyWaitedStep? || step.ManyReturnStep?)
    ensures Inv(s')
  {
    match step
    case ManyWaitedStep(t, c) => ManyWaitedKeeps(s, s', t, c);
    case ManyReturnStep(t) => ManyReturnKeeps(s, s', t);
  }

  lemma FlushStepKeeps(s: State, s': State, step: Step)
    requires Inv(s) && NextStep(s, s', step) && (step.EnterStep? || step.DetachStep?)
    ensures Inv(s')
  {
    match step
    case EnterStep(c, byIpi) => EnterKeeps(s, s', c, byIpi);
    case DetachStep(c) => DetachKeeps(s, s', c);
  }

  lemma DrainStepKeeps(s: State, s': State, step: Step)
    requires Inv(s) && NextStep(s, s', step) && (step.EventStep? || step.LeaveStep?)
    ensures Inv(s')
  {
    match step
    case EventStep(c) => EventKeeps(s, s', c);
    case LeaveStep(c) => LeaveKeeps(s, s', c);
  }

  lemma StepKeeps(s: State, s': State, step: Step)
    requires Inv(s) && NextStep(s, s', step)
    ensures Inv(s')
  {
    if step.StartSingleStep? || step.StartManyStep? {
      StartStepKeeps(s, s', step);
    } else if step.StartEmbeddedStep? || step.WaitedStep? {
      AsyncStepKeeps(s, s', step);
    } else if step.ExecStep? || step.SendStep? {
      ExecStepKeeps(s, s', step);
    } else if step.RunHereStep? || step.ManyLocalStep? {
      LocalStepKeeps(s, s', step);
    } else if step.ManySkipStep? || step.ManyLockStep? {
      ManyLoopKeeps(s, s', step);
    } else if step.ManyPushStep? || step.ManySendStep? {
      ManyQueueKeeps(s, s', step);
    } else if step.ManyWaitedStep? || step.ManyReturnStep? {
      ManyWaitKeeps(s, s', step);
    } else if step.EnterStep? || step.DetachStep? {
      FlushStepKeeps(s, s', step);
    } else {
      DrainStepKeeps(s, s', step);
    }
  }
}
