/** Cross-CPU calls never deadlock.

    A sender of a many-CPU call owes the interrupts it has not yet sent while it spins on a record
    that its own earlier call left in some queue.  The theorem is that such waits cannot form a
    cycle: the record is older than the call that spins on it, and the queue it stands in became
    non-empty even earlier. */
module SmpProgress {
  import opened SmpFlush
  import opened SmpProtocol
  import opened SmpInvariant
  import opened SmpProofs
  import opened SmpReceiver
  import opened SmpTheorems

  /** Steps that need no new call and no idle loop that happens to flush. */
  predicate Service(step: Step) {
    match step
    case StartSingleStep(_, _, _, _) => false
    case StartEmbeddedStep(_, _, _, _, _) => false
    case StartManyStep(_, _, _, _, _) => false
    case EnterStep(_, byIpi) => byIpi
    case _ => true
  }

  ghost predicate CanStep(s: State, step: Step) {
    exists s' :: NextStep(s, s', step)
  }

  ghost predicate CanServe(s: State) {
    exists step :: CanStep(s, step) && Service(step)
  }

  lemma Serves(s: State, s': State, step: Step)
    requires Service(step) && NextStep(s, s', step)
    ensures CanServe(s)
  {
    assert CanStep(s, step);
  }

  // What can move, moves

  lemma CpuServes(s: State, c: CpuId)
    requires c in s.cpus && CpuOk(c, s.cpus[c], s.csds, s.calls)
    requires !s.cpus[c].flush.Off? || s.cpus[c].ipi
    ensures CanServe(s)
  {
    var C := s.cpus[c];
    match C.flush
    case Off => Serves(s, s.(cpus := s.cpus[c := C.(flush := Entered, ipi := false)]), EnterStep(c, true));
    case Entered =>
      Serves(s, s.(cpus := s.cpus[c := C.(queue := [], flush := Draining(FlushTrace(Reverse(Entries(C.queue, s.csds)))))],
                   csds := map id | id in s.csds :: if id in C.queue then s.csds[id].(place := Detached(c)) else s.csds[id]),
             DetachStep(c));
    case Draining(plan) =>
      if plan == [] {
        Serves(s, s.(cpus := s.cpus[c := C.(flush := Off)]), LeaveStep(c));
      } else {
        EventServes(s, c);
      }
  }

  lemma EventServes(s: State, c: CpuId)
    requires c in s.cpus && s.cpus[c].flush.Draining? && s.cpus[c].flush.plan != []
    requires TraceOk(s.cpus[c].flush.plan, c, s.csds.Keys, s.calls)
    ensures CanServe(s)
  {
    var C := s.cpus[c];
    var e, u := C.flush.plan[0], s.(cpus := s.cpus[c := C.(flush := Draining(C.flush.plan[1..]))]);
    assert EventOk(e, c, s.csds.Keys, s.calls);
    match e
    case Ran(_, n) => Serves(s, Ran1(u, c, n), EventStep(c));
    case Unlocked(id) => Serves(s, Release(u, id), EventStep(c));
    case RanIrqWork(id, n) => Serves(s, Release(Ran1(u, c, n), id), EventStep(c));
    case Woke(id, n) => Serves(s, Release(Ran1(u, c, n), id), EventStep(c));
  }

  predicate Locked1(csds: map<CsdId, Rec>, id: CsdId) { id in csds && csds[id].locked }

  /** The next record of the mask is locked. */
  ghost predicate NextLocked(t: Tid, mask: set<CpuId>, csds: map<CsdId, Rec>) {
    exists c :: Least(c, mask) && Locked1(csds, Cfd(t.Cpu(), c))
  }

  lemma {:induction false} HasLeast(mask: set<CpuId>) returns (c: CpuId)
    requires mask != {}
    ensures Least(c, mask)
    decreases mask
  {
    c :| c in mask;
    var rest := mask - {c};
    if rest != {} {
      var d := HasLeast(rest);
      c := if c < d then c else d;
    }
    forall e | e in mask ensures c <= e {
      assert e in rest || rest == mask - {e};
    }
  }

  lemma OnlyLeast(c: CpuId, mask: set<CpuId>)
    requires Least(c, mask)
    ensures forall d :: Least(d, mask) ==> d == c
  {
  }

  /** Sender T spins on a locked record. */
  ghost predicate Blocked(t: Tid, T: Thread, csds: map<CsdId, Rec>) {
    match T
    case Spins(_, _, id) => Locked1(csds, id)
    case Many(_, _, want, _, Looping, todo, _, _, _, _, _) => NextLocked(t, todo, csds) && forall c :: Least(c, todo) ==> c in want.accepts
    case Many(_, _, _, _, Waits(left), _, _, _, _, _, _) => NextLocked(t, left, csds)
    case _ => false
  }

  lemma SenderServes(s: State, t: Tid)
    requires RecInv(s) && t in s.threads && ThreadOk(t, s.threads[t], s)
    requires !Resting(s, t) && !Blocked(t, s.threads[t], s.csds)
    ensures CanServe(s)
  {
    var T := s.threads[t];
    match T
    case Ready(_, _, _, _) => ExecServes(s, t);
    case RunsHere(_, _) =>
      Serves(s, SetThread(Ran1(Issue(s, t.Cpu(), T.call), t.Cpu(), T.call), t, Returned(T.call, T.wait, false, {t.Cpu()}, {})),
             RunHereStep(t));
    case Pushed(_, _, _, _, _) =>
      Serves(s, SetThread(if T.owes then Kick(s, T.target) else s, t,
                          if T.wait then Spins(T.call, T.target, T.id) else Returned(T.call, false, false, {T.target}, {})),
             SendStep(t));
    case Spins(_, _, _) => Serves(s, SetThread(s, t, Returned(T.call, true, false, {T.target}, {})), WaitedStep(t));
    case Many(_, _, _, _, _, _, _, _, _, _, _) => ManyServes(s, t);
  }

  lemma ExecServes(s: State, t: Tid)
    requires RecInv(s) && t in s.threads && s.threads[t].Ready? && s.threads[t].id in s.csds
    ensures CanServe(s)
  {
    var T := s.threads[t];
    if T.target == t.Cpu() {
      Serves(s, SetThread(Release(s, T.id), t, RunsHere(T.call, T.wait)), ExecStep(t));
    } else if T.target !in s.online {
      Serves(s, SetThread(Release(s, T.id), t, Returned(T.call, T.wait, true, {}, {})), ExecStep(t));
    } else {
      Serves(s, SetThread(Push(s, T.id, T.target, T.call), t,
                          Pushed(T.call, T.target, T.id, T.wait, s.cpus[T.target].queue == [])), ExecStep(t));
    }
  }

  lemma ManyServes(s: State, t: Tid)
    requires RecInv(s) && t in s.threads && s.threads[t].Many? && ManyOk(t, s.threads[t], s)
    requires !Blocked(t, s.threads[t], s.csds)
    ensures CanServe(s)
  {
    match s.threads[t].stage
    case Looping => LoopServes(s, t);
    case Holding(c) => HolderServes(s, t, c);
    case Sent => SentServes(s, t);
    case Waits(left) => WaiterServes(s, t, left);
  }

  lemma HolderServes(s: State, t: Tid, c: CpuId)
    requires RecInv(s) && t in s.threads && s.threads[t].Many? && s.threads[t].stage == Holding(c) && ManyOk(t, s.threads[t], s)
    ensures CanServe(s)
  {
    var T := s.threads[t];
    assert c in T.todo + T.skipped + (T.picked - {t.Cpu()});
    Serves(s, SetThread(Push(s, Cfd(t.Cpu(), c), c, T.call), t, Sends(T, c, s.cpus[c].queue == [])), ManyPushStep(t));
  }

  lemma SentServes(s: State, t: Tid)
    requires t in s.threads && s.threads[t].Many? && s.threads[t].stage.Sent? && t.Cpu() in s.cpus
    ensures CanServe(s)
  {
    var T := s.threads[t];
    var here, wanted := t.Cpu(), if T.wait then T.picked else {};
    if T.want.Here(here, T.mask) {
      Serves(s, SetThread(Ran1(Issue(s, here, T.call), here, T.call), t, T.(stage := Waits(wanted), picked := T.picked + {here})), ManyLocalStep(t));
    } else {
      Serves(s, SetThread(s, t, T.(stage := Waits(wanted))), ManyLocalStep(t));
    }
  }

  lemma WaiterServes(s: State, t: Tid, left: set<CpuId>)
    requires RecInv(s) && t in s.threads && s.threads[t].Many? && s.threads[t].stage == Waits(left) && ManyOk(t, s.threads[t], s)
    requires !Blocked(t, s.threads[t], s.csds)
    ensures CanServe(s)
  {
    var T := s.threads[t];
    if left == {} {
      Serves(s, SetThread(s, t, Returned(T.call, T.wait, false, T.picked, T.skipped)), ManyReturnStep(t));
    } else {
      var c := HasLeast(left);
      assert c in T.todo + T.skipped + (T.picked - {t.Cpu()});
      Serves(s, SetThread(s, t, T.(stage := Waits(T.stage.left - {c}))), ManyWaitedStep(t, c));
    }
  }

  lemma LoopServes(s: State, t: Tid)
    requires RecInv(s) && t in s.threads && s.threads[t].Many? && ManyOk(t, s.threads[t], s)
    requires s.threads[t].stage.Looping? && !Blocked(t, s.threads[t], s.csds)
    ensures CanServe(s)
  {
    var T := s.threads[t];
    if T.todo == {} {
      Serves(s, SetThread(if T.nr == 0 then s else if T.nr == 1 then Kick(s, T.last) else KickAll(s, T.owed), t,
                          T.(stage := Sent)), ManySendStep(t));
    } else {
      var c := HasLeast(T.todo);
      var id := Cfd(t.Cpu(), c);
      if c !in T.want.accepts {
        Serves(s, SetThread(s, t, T.(todo := T.todo - {c}, skipped := T.skipped + {c})), ManySkipStep(t, c));
        return;
      }
      assert !Locked1(s.csds, id) by {
        OnlyLeast(c, T.todo);
      }
      Serves(s, SetThread(s, t, T.(stage := Holding(c))).(
                  csds := s.csds[id := s.csds[id].(locked := true, kind := if T.wait then Sync else s.csds[id].kind, func := T.call)]),
             ManyLockStep(t, c));
    }
  }

  // What cannot move is finished

  ghost predicate Stuck(s: State) {
    && (forall c :: c in s.cpus ==> s.cpus[c].flush.Off? && !s.cpus[c].ipi)
    && (forall t :: t in s.threads ==> Resting(s, t) || Blocked(t, s.threads[t], s.csds))
  }

  lemma NoServiceIsStuck(s: State)
    requires RecInv(s) && CpuInv(s) && ThreadInv(s) && !CanServe(s)
    ensures Stuck(s)
  {
    forall c | c in s.cpus ensures s.cpus[c].flush.Off? && !s.cpus[c].ipi {
      if !s.cpus[c].flush.Off? || s.cpus[c].ipi {
        CpuServes(s, c);
      }
    }
    forall t | t in s.threads ensures Resting(s, t) || Blocked(t, s.threads[t], s.csds) {
      if !Resting(s, t) && !Blocked(t, s.threads[t], s.csds) {
        SenderServes(s, t);
      }
    }
  }

  /** In a stuck state a locked record stands in a queue. */
  lemma LockedIsQueued(s: State, id: CsdId) returns (c: CpuId)
    requires RecInv(s) && PlaceInv(s) && HeldInv(s) && Stuck(s) && Locked1(s.csds, id)
    ensures c in s.cpus && id in s.cpus[c].queue
  {
    var r := s.csds[id];
    assert RecOk(r, s.cpus.Keys);
    assert HeldOk(s, id);
    assert !r.place.Home? by {
      NobodyGrips(s, id);
    }
    c := r.place.cpu;
    assert PlaceOk(c, s.cpus[c], id, r.place);
  }

  lemma NobodyGrips(s: State, id: CsdId)
    requires Stuck(s)
    ensures forall t :: t in s.threads ==> !Grips(t, s.threads[t], id)
  {
  }

  /** A many-CPU record stands only in its target's queue, and the call it stands there for is its
      owner's and has been issued to the target. */
  lemma CfdEntry(c: CpuId, C: CpuState, csds: map<CsdId, Rec>, calls: map<int, Call>, cpu: CpuId, d: CpuId)
    requires CpuOk(c, C, csds, calls) && Cfd(cpu, d) in C.queue
    ensures c == d && Cfd(cpu, d) in csds
    ensures var n := csds[Cfd(cpu, d)].func; n in calls && calls[n].tid == Task(cpu) && C.issued[n] > 0
  {
    var i :| 0 <= i < |C.queue| && C.queue[i] == Cfd(cpu, d);
    assert EntryOk(Entries(C.queue, csds)[i], c, csds.Keys, calls);
    assert Funcs(Entries(C.queue, csds))[i] in Funcs(Entries(C.queue, csds));
  }

  /** The queue in which a spinning sender's record stands became non-empty before its call began. */
  lemma OlderQueue(s: State, t: Tid, T: Thread, d: CpuId, c: CpuId)
    requires CpuInv(s) && IssuedInv(s) && OldInv(s) && t in s.threads && T == s.threads[t] && T.Many? && t.Task?
    requires d !in T.picked && c in s.cpus && Cfd(t.Cpu(), d) in s.cpus[c].queue
    ensures c == d && s.cpus[d].since <= T.call
  {
    var id := Cfd(t.Cpu(), d);
    CfdEntry(c, s.cpus[c], s.csds, s.calls, t.Cpu(), d);
    OlderAt(t, T, d, s.cpus[d], id, s.csds[id].func, s.calls);
  }

  lemma OlderAt(t: Tid, T: Thread, d: CpuId, C: CpuState, id: CsdId, n: int, calls: map<int, Call>)
    requires T.Many? && IssuedOk(T, d, C) && OldOk(t, T, C, id, n, calls) && d !in T.picked
    requires id in C.queue && n in calls && calls[n].tid == t && C.issued[n] > 0
    ensures C.since <= T.call
  {
  }

  /** In a stuck state every queue is empty: whoever owes the interrupt for a non-empty one spins
      on a record in a queue that has been waiting for longer. */
  lemma {:induction false} StuckEmpty(s: State, c: CpuId)
    requires Inv(s) && Stuck(s) && c in s.cpus
    ensures s.cpus[c].queue == []
    decreases s.cpus[c].since
  {
    if s.cpus[c].queue != [] {
      assert KickOk(s, c);
      var t :| t in s.threads && Owing(s.threads[t], c, s.cpus[c].since);
      OwerLoops(s, t, c);
      var d :| Least(d, s.threads[t].todo) && Locked1(s.csds, Cfd(t.Cpu(), d));
      var e := LockedIsQueued(s, Cfd(t.Cpu(), d));
      OlderQueue(s, t, s.threads[t], d, e);
      StuckEmpty(s, e);
    }
  }

  lemma OwerLoops(s: State, t: Tid, c: CpuId)
    requires Stuck(s) && ThreadInv(s) && t in s.threads && c in Owes(s.threads[t])
    ensures s.threads[t].Many? && s.threads[t].stage.Looping? && ManyOk(t, s.threads[t], s)
    ensures NextLocked(t, s.threads[t].todo, s.csds)
  {
    assert Resting(s, t) || Blocked(t, s.threads[t], s.csds);
    assert ThreadOk(t, s.threads[t], s);
  }

  /** Every call has returned, every record is free, and whatever was issued has been done. */
  ghost predicate Quiescent(s: State) {
    && (forall t :: t in s.threads ==> Resting(s, t))
    && (forall id :: id in s.csds ==> !s.csds[id].locked)
    && (forall c :: c in s.cpus ==> s.cpus[c].queue == [] && s.cpus[c].flush.Off? && s.cpus[c].done == s.cpus[c].issued)
  }

  /** Deadlock freedom: in every reachable state either some sender or some interrupted CPU can
      take a step, or nothing is left to do. */
  lemma NoDeadlock(run: Run, k: nat)
    requires IsRun(run) && k < |run.states| && !CanServe(run.states[k])
    ensures Quiescent(run.states[k])
  {
    var s := run.states[k];
    RunInvariant(run, k);
    NoServiceIsStuck(s);
    forall c | c in s.cpus ensures s.cpus[c].queue == [] {
      StuckEmpty(s, c);
    }
    StuckIsQuiescent(s);
  }

  lemma StuckIsQuiescent(s: State)
    requires RecInv(s) && PlaceInv(s) && CpuInv(s) && HeldInv(s) && Stuck(s) && forall c :: c in s.cpus ==> s.cpus[c].queue == []
    ensures Quiescent(s)
  {
    StuckUnlocked(s);
    StuckRests(s);
    forall c | c in s.cpus ensures s.cpus[c].done == s.cpus[c].issued {
      AllDone(c, s.cpus[c], s.csds, s.calls);
    }
  }

  lemma StuckUnlocked(s: State)
    requires RecInv(s) && PlaceInv(s) && HeldInv(s) && Stuck(s) && forall c :: c in s.cpus ==> s.cpus[c].queue == []
    ensures forall id :: id in s.csds ==> !s.csds[id].locked
  {
    forall id | id in s.csds ensures !s.csds[id].locked {
      if s.csds[id].locked {
        var c := LockedIsQueued(s, id);
      }
    }
  }

  lemma StuckRests(s: State)
    requires Stuck(s) && forall id :: id in s.csds ==> !s.csds[id].locked
    ensures forall t :: t in s.threads ==> Resting(s, t)
  {
    forall t | t in s.threads ensures Resting(s, t) {
      assert Blocked(t, s.threads[t], s.csds) ==> exists id :: Locked1(s.csds, id);
    }
  }

  lemma AllDone(c: CpuId, C: CpuState, csds: map<CsdId, Rec>, calls: map<int, Call>)
    requires CpuOk(c, C, csds, calls) && C.queue == [] && C.flush.Off?
    ensures C.done == C.issued
  {
    assert Funcs(Entries(C.queue, csds)) == [];
  }

  /** So a call that does not wait is done as well once nothing moves any more: on the CPUs it reached, once. */
  lemma QuietDone(run: Run, k: nat, t: Tid, c: CpuId)
    requires IsRun(run) && k < |run.states| && !CanServe(run.states[k])
    requires t in run.states[k].threads && run.states[k].threads[t].Returned? && c in run.states[k].cpus
    ensures var s := run.states[k];
            var T := s.threads[t];
            && T.call in s.calls && Reached(s.calls[T.call], s.online, T.err, T.picked, T.skipped)
            && s.cpus[c].done[T.call] == if c in T.picked then 1 else 0
  {
    var s := run.states[k];
    NoDeadlock(run, k);
    RunInvariant(run, k);
    Localize(s, t);
    ReturnedReached(s, t, s.threads[t]);
    assert IssuedOk(s.threads[t], c, s.cpus[c]);
  }

  lemma ReturnedReached(s: State, t: Tid, T: Thread)
    requires ThreadOk(t, T, s) && T.Returned?
    ensures T.call in s.calls && Reached(s.calls[T.call], s.online, T.err, T.picked, T.skipped)
  {
  }
}
