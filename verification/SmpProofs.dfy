/** Every step of the call protocol keeps the invariant. */
module SmpProofs {
  import opened SmpFlush
  import opened SmpProtocol
  import opened SmpInvariant

  lemma InitEstablishes(s: State)
    requires Init(s)
    ensures Inv(s)
  {
    forall c | c in s.cpus ensures CpuOk(c, s.cpus[c], s.csds, s.calls) {
      assert Entries([], s.csds) == [] && Funcs([]) == [];
    }
  }

  // Frames

  predicate Extends(calls: map<int, Call>, calls': map<int, Call>) {
    forall n :: n in calls ==> n in calls' && calls'[n] == calls[n]
  }

  lemma TraceFrame(tr: seq<Event>, c: CpuId, ids: set<CsdId>, calls: map<int, Call>, calls': map<int, Call>)
    requires TraceOk(tr, c, ids, calls) && Extends(calls, calls')
    ensures TraceOk(tr, c, ids, calls')
  {
    forall p | 0 <= p < |tr| ensures EventOk(tr[p], c, ids, calls') {
      assert EventOk(tr[p], c, ids, calls);
    }
    forall p | 0 <= p < |tr| && tr[p].Ran? && WaitsFor(calls', tr[p].func) ensures FreedNext(tr, p) {
      assert EventOk(tr[p], c, ids, calls);
    }
  }

  /** A CPU does not notice changes to records outside its queue, nor new calls. */
  lemma CpuFrame(c: CpuId, C: CpuState, csds: map<CsdId, Rec>, calls: map<int, Call>,
                 csds': map<CsdId, Rec>, calls': map<int, Call>)
    requires CpuOk(c, C, csds, calls) && Extends(calls, calls') && csds'.Keys == csds.Keys
    requires forall id :: id in C.queue && id in csds ==> csds'[id].kind == csds[id].kind && csds'[id].func == csds[id].func
    ensures CpuOk(c, C, csds', calls')
  {
    TraceFrame(C.Plan(), c, csds.Keys, calls, calls');
    assert Entries(C.queue, csds') == Entries(C.queue, csds);
  }

  /** What thread t relies on: the record it holds is untouched, its free records stay free. */
  ghost predicate RecsKept(t: Tid, T: Thread, csds: map<CsdId, Rec>, csds': map<CsdId, Rec>) {
    && csds'.Keys == csds.Keys
    && (forall id :: id in csds && Owns(t, id) && !T.Idle? && csds[id].locked && csds[id].place.Home? && csds[id].func == T.call ==>
          csds'[id] == csds[id])
    && (forall id :: id in csds && Owns(t, id) && !id.Embedded? && !csds[id].locked ==> !csds'[id].locked)
  }

  lemma ThreadFrame(t: Tid, T: Thread, s: State, s': State)
    requires ThreadOk(t, T, s) && RecsKept(t, T, s.csds, s'.csds)
    requires Extends(s.calls, s'.calls) && s'.online == s.online
    ensures ThreadOk(t, T, s')
  {
    if T.Many? && T.stage.Holding? {
      assert Owns(t, Cfd(t.Cpu(), T.stage.target));
    }
  }

  // Steps that change one thread only

  /** The part of the invariant that speaks of one thread. */
  ghost predicate LocalInv(s: State, t: Tid) {
    && t in s.threads && ThreadOk(t, s.threads[t], s)
    && (forall c :: c in s.cpus ==> IssuedOk(s.threads[t], c, s.cpus[c]))
    && (forall cpu :: t == Task(cpu) && Stack(cpu) in s.csds ==> StackOk(s.threads[t], cpu, s.csds[Stack(cpu)]))
  }

  lemma Localize(s: State, t: Tid)
    requires Inv(s) && t in s.threads
    ensures LocalInv(s, t)
  {
  }

  predicate SameOrNewCall(s: State, T: Thread, T': Thread) {
    !T'.Idle? && (T'.call == |s.calls| || (!T.Idle? && T'.call == T.call))
  }

  /** A sender goes on with its call, or starts the next one, and forgets no interrupt. */
  predicate Advances(s: State, T: Thread, T': Thread) {
    SameOrNewCall(s, T, T') && Owes(T) <= Owes(T') && (Owes(T) != {} ==> !T.Idle? && T'.call == T.call)
  }

  predicate NewCalls(s: State, s': State) {
    s'.calls.Keys == s.calls.Keys || s'.calls.Keys == s.calls.Keys + {|s.calls|}
  }

  /** Thread t0 alone moves, possibly to a new call. */
  ghost predicate OneThread(s: State, s': State, t0: Tid) {
    && t0 in s.threads && s'.threads.Keys == s.threads.Keys
    && s' == s.(threads := s'.threads, calls := s'.calls) && Extends(s.calls, s'.calls)
    && (forall t :: t in s.threads && t != t0 ==> s'.threads[t] == s.threads[t])
    && Advances(s, s.threads[t0], s'.threads[t0]) && NewCalls(s, s')
    && !Gripping(s.threads[t0])
    && LocalInv(s', t0)
  }

  lemma ThreadOnly(s: State, s': State, t0: Tid)
    requires Inv(s) && OneThread(s, s', t0)
    ensures Inv(s')
  {
    OneThreadThreads(s, s', t0);
    assert CpuInv(s') by {
      forall c | c in s'.cpus ensures CpuOk(c, s'.cpus[c], s'.csds, s'.calls) {
        CpuFrame(c, s.cpus[c], s.csds, s.calls, s'.csds, s'.calls);
      }
    }
    OneThreadKicks(s, s', t0);
    OneThreadQuiet(s, s', t0);
    QuietKeeps(s, s', t0);
  }

  lemma OneThreadQuiet(s: State, s': State, t0: Tid)
    requires OneThread(s, s', t0)
    ensures Quiet(s, s', t0)
  {
  }

  lemma OneThreadThreads(s: State, s': State, t0: Tid)
    requires ThreadInv(s) && IssuedInv(s) && StackInv(s) && OneThread(s, s', t0)
    ensures ThreadInv(s') && IssuedInv(s') && StackInv(s')
  {
    forall t | t in s'.threads ensures ThreadOk(t, s'.threads[t], s') {
      if t != t0 {
        ThreadFrame(t, s.threads[t], s, s');
      }
    }
  }

  lemma OneThreadKicks(s: State, s': State, t0: Tid)
    requires KickInv(s) && OneThread(s, s', t0)
    ensures KickInv(s')
  {
    forall c | c in s'.cpus ensures KickOk(s', c) {
      KickKept(s, s', t0, c);
    }
  }

  /** A pending interrupt stays pending when one sender keeps owing what it owed. */
  lemma KickKept(s: State, s': State, t0: Tid, c: CpuId)
    requires c in s.cpus && c in s'.cpus && KickOk(s, c) && t0 in s.threads && s'.threads.Keys == s.threads.Keys
    requires forall t :: t in s.threads && t != t0 ==> s'.threads[t] == s.threads[t]
    requires Owing(s.threads[t0], c, s.cpus[c].since) ==> Owing(s'.threads[t0], c, s.cpus[c].since) || s'.cpus[c].ipi
    requires s'.cpus[c].since == s.cpus[c].since
    requires s'.cpus[c].queue != [] ==> s.cpus[c].queue != []
    requires s.cpus[c].ipi ==> s'.cpus[c].ipi
    requires s.cpus[c].flush.Entered? ==> s'.cpus[c].flush.Entered?
    ensures KickOk(s', c)
  {
    if s'.cpus[c].queue != [] && !s'.cpus[c].ipi && !s'.cpus[c].flush.Entered? {
      var t :| t in s.threads && Owing(s.threads[t], c, s.cpus[c].since);
      assert t in s'.threads && Owing(s'.threads[t], c, s.cpus[c].since);
    }
  }

  /** A sender's step that leaves every queue as it is. */
  ghost predicate Quiet(s: State, s': State, t0: Tid) {
    && t0 in s.threads && s'.threads.Keys == s.threads.Keys && s'.cpus.Keys == s.cpus.Keys && s'.csds.Keys == s.csds.Keys
    && Extends(s.calls, s'.calls) && NewCalls(s, s') && SameOrNewCall(s, s.threads[t0], s'.threads[t0])
    && (forall t :: t in s.threads && t != t0 ==> s'.threads[t] == s.threads[t])
    && (forall c :: c in s.cpus ==> s'.cpus[c].queue == s.cpus[c].queue && s'.cpus[c].since == s.cpus[c].since)
    && (forall c, id :: c in s.cpus && id in s.cpus[c].queue && id in s.csds ==> s'.csds[id].func == s.csds[id].func)
    && (forall id :: id in s.csds && s'.csds[id].locked && s'.csds[id].place.Home? ==>
          Grips(t0, s'.threads[t0], id)
          || (s.csds[id].locked && s.csds[id].place.Home? && !Grips(t0, s.threads[t0], id)))
  }

  lemma QuietKeeps(s: State, s': State, t0: Tid)
    requires HeldInv(s) && OldInv(s) && NumInv(s) && CpuInv(s) && Quiet(s, s', t0)
    ensures HeldInv(s') && OldInv(s') && NumInv(s')
  {
    QuietHeld(s, s', t0);
    QuietOld(s, s', t0);
    QuietNum(s, s', t0);
  }

  lemma QuietHeld(s: State, s': State, t0: Tid)
    requires HeldInv(s) && Quiet(s, s', t0)
    ensures HeldInv(s')
  {
    forall id | id in s'.csds ensures HeldOk(s', id) {
      if s'.csds[id].locked && s'.csds[id].place.Home? && !Grips(t0, s'.threads[t0], id) {
        assert HeldOk(s, id);
        var t :| t in s.threads && Grips(t, s.threads[t], id);
        assert t in s'.threads && Grips(t, s'.threads[t], id);
      }
    }
  }

  lemma QuietOld(s: State, s': State, t0: Tid)
    requires OldInv(s) && NumInv(s) && CpuInv(s) && Quiet(s, s', t0)
    ensures OldInv(s')
  {
    forall t, c, id | t in s'.threads && c in s'.cpus && id in s'.csds
      ensures OldOk(t, s'.threads[t], s'.cpus[c], id, s'.csds[id].func, s'.calls)
    {
      assert OldOk(t, s.threads[t], s.cpus[c], id, s.csds[id].func, s.calls);
      if id in s.cpus[c].queue {
        QueuedCall(c, s.cpus[c], s.csds, s.calls, id);
      }
    }
  }

  lemma QueuedCall(c: CpuId, C: CpuState, csds: map<CsdId, Rec>, calls: map<int, Call>, id: CsdId)
    requires CpuOk(c, C, csds, calls) && id in C.queue
    ensures id in csds && csds[id].func in calls
  {
    var i :| 0 <= i < |C.queue| && C.queue[i] == id;
    assert EntryOk(Entries(C.queue, csds)[i], c, csds.Keys, calls);
  }

  lemma QuietNum(s: State, s': State, t0: Tid)
    requires NumInv(s) && Quiet(s, s', t0)
    ensures NumInv(s')
  {
    assert |s'.calls.Keys| == |s'.calls| && |s.calls.Keys| == |s.calls|;
  }

  /** Nothing has been issued for a call number not used yet. */
  ghost predicate Unissued(s: State, n: int) {
    forall c :: c in s.cpus ==> s.cpus[c].issued[n] == 0
  }

  lemma NewCallUnissued(s: State, n: int)
    requires Inv(s) && n == |s.calls|
    ensures Unissued(s, n) && n !in s.calls
  {
    forall c | c in s.cpus ensures s.cpus[c].issued[n] == 0 {
      assert CpuOk(c, s.cpus[c], s.csds, s.calls);
    }
  }

  lemma StartManyLocal(s: State, s': State, cpu: CpuId, mask: set<CpuId>, wait: bool, want: Want, n: int)
    requires LocalInv(s, Task(cpu)) && Unissued(s, n) && n !in s.calls && DoStartMany(s, s', cpu, mask, wait, want, n)
    ensures LocalInv(s', Task(cpu))
  {
    assert ManyOk(Task(cpu), s'.threads[Task(cpu)], s');
    assert ThreadOk(Task(cpu), s'.threads[Task(cpu)], s');
  }

  lemma StartManyMoves(s: State, s': State, cpu: CpuId, mask: set<CpuId>, wait: bool, want: Want, n: int)
    requires LocalInv(s', Task(cpu)) && n !in s.calls && DoStartMany(s, s', cpu, mask, wait, want, n)
    ensures OneThread(s, s', Task(cpu))
  {
  }

  lemma StartManyKeeps(s: State, s': State, cpu: CpuId, mask: set<CpuId>, wait: bool, want: Want, n: int)
    requires Inv(s) && DoStartMany(s, s', cpu, mask, wait, want, n)
    ensures Inv(s')
  {
    Localize(s, Task(cpu));
    NewCallUnissued(s, n);
    StartManyLocal(s, s', cpu, mask, wait, want, n);
    StartManyMoves(s, s', cpu, mask, wait, want, n);
    ThreadOnly(s, s', Task(cpu));
  }

  lemma ManySkipMoves(s: State, s': State, t: Tid, c: CpuId)
    requires LocalInv(s, t) && DoManySkip(s, s', t, c)
    ensures OneThread(s, s', t)
  {
    var T, T' := s.threads[t], s'.threads[t];
    assert T'.todo + T'.skipped + (T'.picked - {t.Cpu()}) == T.todo + T.skipped + (T.picked - {t.Cpu()});
  }

  lemma ManySkipKeeps(s: State, s': State, t: Tid, c: CpuId)
    requires Inv(s) && DoManySkip(s, s', t, c)
    ensures Inv(s')
  {
    Localize(s, t);
    ManySkipMoves(s, s', t, c);
    ThreadOnly(s, s', t);
  }

  lemma WaitedMoves(s: State, s': State, t: Tid)
    requires LocalInv(s, t) && DoWaited(s, s', t)
    ensures OneThread(s, s', t)
  {
  }

  lemma WaitedKeeps(s: State, s': State, t: Tid)
    requires Inv(s) && DoWaited(s, s', t)
    ensures Inv(s')
  {
    Localize(s, t);
    WaitedMoves(s, s', t);
    ThreadOnly(s, s', t);
  }

  lemma ManyWaitedMoves(s: State, s': State, t: Tid, c: CpuId)
    requires LocalInv(s, t) && DoManyWaited(s, s', t, c)
    ensures OneThread(s, s', t)
  {
  }

  lemma ManyWaitedKeeps(s: State, s': State, t: Tid, c: CpuId)
    requires Inv(s) && DoManyWaited(s, s', t, c)
    ensures Inv(s')
  {
    Localize(s, t);
    ManyWaitedMoves(s, s', t, c);
    ThreadOnly(s, s', t);
  }

  lemma ManyReturnMoves(s: State, s': State, t: Tid)
    requires LocalInv(s, t) && DoManyReturn(s, s', t)
    ensures OneThread(s, s', t)
  {
    var T := s.threads[t];
    ManyReached(t, T, s);
    assert ThreadOk(t, s'.threads[t], s') by {
      ManyUnlocked(t, T, s);
    }
  }

  /** A many-CPU call that has gone through its mask has reached whom it should. */
  lemma ManyReached(t: Tid, T: Thread, s: State)
    requires T.Many? && T.stage.Waits? && Mine(s, t, T.call, T.wait, true, T.mask, T.want) && ManyOk(t, T, s)
    ensures Reached(s.calls[T.call], s.online, false, T.picked, T.skipped)
  {
    var here, all := t.Cpu(), T.mask * s.online - {t.Cpu()};
    assert T.skipped + (T.picked - {here}) == all;
    assert T.skipped == all - T.want.accepts;
    assert T.picked - {here} == all * T.want.accepts == T.mask * s.online * T.want.accepts - {here};
  }

  lemma ManyUnlocked(t: Tid, T: Thread, s: State)
    requires T.Many? && T.stage == Waits({}) && Mine(s, t, T.call, T.wait, true, T.mask, T.want) && ManyOk(t, T, s)
    ensures T.wait ==> t.Task? && forall c :: c in T.picked && c != t.Cpu() ==> Unlocked1(s.csds, CsdFor(s.calls[T.call], c))
  {
  }

  lemma ManyReturnKeeps(s: State, s': State, t: Tid)
    requires Inv(s) && DoManyReturn(s, s', t)
    ensures Inv(s')
  {
    Localize(s, t);
    ManyReturnMoves(s, s', t);
    ThreadOnly(s, s', t);
  }

  // Steps that lock a record

  /** Thread t0 locks its free record `id` for its (possibly new) call, whose number is n. */
  ghost predicate LocksOne(s: State, s': State, t0: Tid, id: CsdId, n: int) {
    && t0 in s.threads && s'.threads.Keys == s.threads.Keys
    && id in s.csds && Owns(t0, id) && !s.csds[id].locked && s.csds[id].place.Home?
    && s' == s.(threads := s'.threads, calls := s'.calls, csds := s'.csds) && Extends(s.calls, s'.calls)
    && n in s'.calls && s'.calls[n].tid == t0
    && (forall t :: t in s.threads && t != t0 ==> s'.threads[t] == s.threads[t])
    && (exists kind :: s'.csds == s.csds[id := Rec(true, kind, n, Home)])
    && Advances(s, s.threads[t0], s'.threads[t0]) && NewCalls(s, s')
    && !Gripping(s.threads[t0]) && Grips(t0, s'.threads[t0], id)
    && LocalInv(s', t0)
  }

  lemma LockKeeps(s: State, s': State, t0: Tid, id: CsdId, n: int)
    requires Inv(s) && LocksOne(s, s', t0, id, n)
    ensures Inv(s')
  {
    LockRecs(s, s', t0, id, n);
    LockPlaces(s, s', t0, id, n);
    LockThreads(s, s', t0, id, n);
    LockCpus(s, s', t0, id, n);
    LockStacks(s, s', t0, id, n);
    LockKicks(s, s', t0, id, n);
    HomeUnqueued(s, id);
    LockQuiet(s, s', t0, id, n);
    QuietKeeps(s, s', t0);
  }

  lemma LockKicks(s: State, s': State, t0: Tid, id: CsdId, n: int)
    requires KickInv(s) && LocksOne(s, s', t0, id, n)
    ensures KickInv(s')
  {
    forall c | c in s'.cpus ensures KickOk(s', c) {
      KickKept(s, s', t0, c);
    }
  }

  ghost predicate Unqueued(s: State, id: CsdId) {
    forall c :: c in s.cpus ==> id !in s.cpus[c].queue
  }

  lemma HomeUnqueued(s: State, id: CsdId)
    requires PlaceInv(s) && id in s.csds && s.csds[id].place.Home?
    ensures Unqueued(s, id)
  {
    forall c | c in s.cpus ensures id !in s.cpus[c].queue {
      assert PlaceOk(c, s.cpus[c], id, s.csds[id].place);
      HomeNotQueued(c, s.cpus[c], id);
    }
  }

  lemma LockQuiet(s: State, s': State, t0: Tid, id: CsdId, n: int)
    requires Unqueued(s, id) && LocksOne(s, s', t0, id, n)
    ensures Quiet(s, s', t0)
  {
  }

  lemma LockRecs(s: State, s': State, t0: Tid, id: CsdId, n: int)
    requires RecInv(s) && LocksOne(s, s', t0, id, n)
    ensures RecInv(s')
  {
  }

  lemma LockPlaces(s: State, s': State, t0: Tid, id: CsdId, n: int)
    requires PlaceInv(s) && LocksOne(s, s', t0, id, n)
    ensures PlaceInv(s')
  {
    forall d, x | d in s'.cpus && x in s'.csds ensures PlaceOk(d, s'.cpus[d], x, s'.csds[x].place) {
      assert PlaceOk(d, s.cpus[d], x, s.csds[x].place);
    }
  }

  lemma LockThreads(s: State, s': State, t0: Tid, id: CsdId, n: int)
    requires ThreadInv(s) && IssuedInv(s) && LocksOne(s, s', t0, id, n)
    ensures ThreadInv(s') && IssuedInv(s')
  {
    forall t | t in s'.threads ensures ThreadOk(t, s'.threads[t], s') {
      if t != t0 {
        LockedByOther(s, s', t0, id, n, t);
        ThreadFrame(t, s.threads[t], s, s');
      }
    }
  }

  /** A record at home is in no queue. */
  lemma HomeNotQueued(c: CpuId, C: CpuState, id: CsdId)
    requires PlaceOk(c, C, id, Home)
    ensures id !in C.queue && Frees(C.Plan())[id] == 0
  {
  }

  /** A CPU does not notice what happens to a record outside its queue. */
  lemma UnqueuedRec(c: CpuId, C: CpuState, csds: map<CsdId, Rec>, calls: map<int, Call>, calls': map<int, Call>, id: CsdId, r: Rec)
    requires CpuOk(c, C, csds, calls) && Extends(calls, calls') && id in csds && id !in C.queue
    ensures CpuOk(c, C, csds[id := r], calls')
  {
    assert csds[id := r].Keys == csds.Keys;
    CpuFrame(c, C, csds, calls, csds[id := r], calls');
  }

  lemma LockCpus(s: State, s': State, t0: Tid, id: CsdId, n: int)
    requires PlaceInv(s) && CpuInv(s) && LocksOne(s, s', t0, id, n)
    ensures CpuInv(s')
  {
    forall c | c in s'.cpus ensures CpuOk(c, s'.cpus[c], s'.csds, s'.calls) {
      assert PlaceOk(c, s.cpus[c], id, s.csds[id].place);
      HomeNotQueued(c, s.cpus[c], id);
      UnqueuedRec(c, s.cpus[c], s.csds, s.calls, s'.calls, id, s'.csds[id]);
    }
  }

  lemma LockStacks(s: State, s': State, t0: Tid, id: CsdId, n: int)
    requires StackInv(s) && LocksOne(s, s', t0, id, n)
    ensures StackInv(s')
  {
  }

  lemma LockedByOther(s: State, s': State, t0: Tid, id: CsdId, n: int, t: Tid)
    requires LocksOne(s, s', t0, id, n) && t in s.threads && t != t0
    ensures RecsKept(t, s.threads[t], s.csds, s'.csds)
  {
  }

  lemma StartSingleLocal(s: State, s': State, cpu: CpuId, target: CpuId, wait: bool, n: int)
    requires LocalInv(s, Task(cpu)) && Unissued(s, n) && n !in s.calls && RecInv(s) && DoStartSingle(s, s', cpu, target, wait, n)
    ensures LocalInv(s', Task(cpu))
    ensures var r := s.csds[if wait then Stack(cpu) else PerCpu(cpu)]; !r.locked && r.place.Home?
  {
    assert RecOk(s.csds[if wait then Stack(cpu) else PerCpu(cpu)], s.cpus.Keys);
  }

  lemma StartSingleMoves(s: State, s': State, cpu: CpuId, target: CpuId, wait: bool, n: int, id: CsdId)
    requires LocalInv(s', Task(cpu)) && n !in s.calls && DoStartSingle(s, s', cpu, target, wait, n)
    requires id == (if wait then Stack(cpu) else PerCpu(cpu)) && !s.csds[id].locked && s.csds[id].place.Home?
    ensures LocksOne(s, s', Task(cpu), id, n)
  {
    assert s'.csds == s.csds[id := Rec(true, s'.csds[id].kind, n, Home)];
  }

  lemma StartSingleKeeps(s: State, s': State, cpu: CpuId, target: CpuId, wait: bool, n: int)
    requires Inv(s) && DoStartSingle(s, s', cpu, target, wait, n)
    ensures Inv(s')
  {
    Localize(s, Task(cpu));
    NewCallUnissued(s, n);
    StartSingleLocal(s, s', cpu, target, wait, n);
    StartSingleMoves(s, s', cpu, target, wait, n, if wait then Stack(cpu) else PerCpu(cpu));
    LockKeeps(s, s', Task(cpu), if wait then Stack(cpu) else PerCpu(cpu), n);
  }

  lemma StartEmbeddedLocal(s: State, s': State, t: Tid, k: nat, target: CpuId, kind: Kind, n: int)
    requires LocalInv(s, t) && Unissued(s, n) && n !in s.calls && RecInv(s) && DoStartEmbedded(s, s', t, k, target, kind, n)
    requires !s.csds[Embedded(k)].locked
    ensures LocalInv(s', t) && s.csds[Embedded(k)].place.Home?
  {
    assert RecOk(s.csds[Embedded(k)], s.cpus.Keys);
  }

  lemma StartEmbeddedMoves(s: State, s': State, t: Tid, k: nat, target: CpuId, kind: Kind, n: int)
    requires LocalInv(s', t) && n !in s.calls && DoStartEmbedded(s, s', t, k, target, kind, n)
    requires !s.csds[Embedded(k)].locked && s.csds[Embedded(k)].place.Home?
    ensures LocksOne(s, s', t, Embedded(k), n)
  {
    assert s'.csds == s.csds[Embedded(k) := Rec(true, kind, n, Home)];
  }

  lemma StartEmbeddedKeeps(s: State, s': State, t: Tid, k: nat, target: CpuId, kind: Kind, n: int)
    requires Inv(s) && DoStartEmbedded(s, s', t, k, target, kind, n)
    ensures Inv(s')
  {
    if !s.csds[Embedded(k)].locked {
      Localize(s, t);
      NewCallUnissued(s, n);
      StartEmbeddedLocal(s, s', t, k, target, kind, n);
      StartEmbeddedMoves(s, s', t, k, target, kind, n);
      LockKeeps(s, s', t, Embedded(k), n);
    }
  }

  lemma ManyLockMoves(s: State, s': State, t: Tid, c: CpuId)
    requires LocalInv(s, t) && RecInv(s) && DoManyLock(s, s', t, c)
    ensures LocksOne(s, s', t, Cfd(t.Cpu(), c), s.threads[t].call)
  {
    var id := Cfd(t.Cpu(), c);
    assert RecOk(s.csds[id], s.cpus.Keys);
    assert s'.csds == s.csds[id := Rec(true, s'.csds[id].kind, s.threads[t].call, Home)];
  }

  lemma ManyLockKeeps(s: State, s': State, t: Tid, c: CpuId)
    requires Inv(s) && DoManyLock(s, s', t, c)
    ensures Inv(s')
  {
    Localize(s, t);
    ManyLockMoves(s, s', t, c);
    LockKeeps(s, s', t, Cfd(t.Cpu(), c), s.threads[t].call);
  }

  // Steps that queue a record

  /** Thread t0 queues the record it holds on CPU c, and owes an interrupt if the queue was empty. */
  ghost predicate PushesOne(s: State, s': State, t0: Tid, id: CsdId, c: CpuId, n: int) {
    && t0 in s.threads && s'.threads.Keys == s.threads.Keys && id in s.csds && c in s.cpus
    && Owns(t0, id) && s.csds[id].locked && s.csds[id].place.Home? && s.csds[id].func == n
    && n in s.calls && s.calls[n].tid == t0 && !s.threads[t0].Idle? && s.threads[t0].call == n
    && EntryOk(Entry(id, s.csds[id].kind, n), c, s.csds.Keys, s.calls) && s.cpus[c].issued[n] == 0
    && s' == Push(s, id, c, n).(threads := s'.threads)
    && (forall t :: t in s.threads && t != t0 ==> s'.threads[t] == s.threads[t])
    && Advances(s, s.threads[t0], s'.threads[t0]) && (s.cpus[c].queue == [] ==> c in Owes(s'.threads[t0]))
    && Grips(t0, s.threads[t0], id) && !Gripping(s'.threads[t0])
    && LocalInv(s', t0)
  }

  lemma PushKeeps(s: State, s': State, t0: Tid, id: CsdId, c: CpuId, n: int)
    requires Inv(s) && PushesOne(s, s', t0, id, c, n)
    ensures Inv(s')
  {
    PushRecs(s, s', t0, id, c, n);
    PushNum(s, s', t0, id, c, n);
    PushPlaces(s, s', t0, id, c, n);
    PushCpus(s, s', t0, id, c, n);
    PushThreads(s, s', t0, id, c, n);
    PushStacks(s, s', t0, id, c, n);
    PushKicks(s, s', t0, id, c, n);
    PushHeld(s, s', t0, id, c, n);
    PushOld(s, s', t0, id, c, n);
  }

  lemma PushHeld(s: State, s': State, t0: Tid, id: CsdId, c: CpuId, n: int)
    requires HeldInv(s) && PushesOne(s, s', t0, id, c, n)
    ensures HeldInv(s')
  {
    forall x | x in s'.csds ensures HeldOk(s', x) {
      if s'.csds[x].locked && s'.csds[x].place.Home? {
        assert HeldOk(s, x);
        var t :| t in s.threads && Grips(t, s.threads[t], x);
        assert t in s'.threads && Grips(t, s'.threads[t], x);
      }
    }
  }

  lemma PushOld(s: State, s': State, t0: Tid, id: CsdId, c: CpuId, n: int)
    requires OldInv(s) && NumInv(s) && ThreadInv(s) && PushesOne(s, s', t0, id, c, n)
    ensures OldInv(s')
  {
    forall t, d, x | t in s'.threads && d in s'.cpus && x in s'.csds
      ensures OldOk(t, s'.threads[t], s'.cpus[d], x, s'.csds[x].func, s'.calls)
    {
      assert OldOk(t, s.threads[t], s.cpus[d], x, s.csds[x].func, s.calls);
      assert x in s'.cpus[d].queue ==> x in s.cpus[d].queue || (d == c && x == id);
    }
  }

  lemma PushRecs(s: State, s': State, t0: Tid, id: CsdId, c: CpuId, n: int)
    requires RecInv(s) && PushesOne(s, s', t0, id, c, n)
    ensures RecInv(s')
  {
  }

  lemma PushNum(s: State, s': State, t0: Tid, id: CsdId, c: CpuId, n: int)
    requires NumInv(s) && PushesOne(s, s', t0, id, c, n)
    ensures NumInv(s')
  {
  }

  lemma PushPlaces(s: State, s': State, t0: Tid, id: CsdId, c: CpuId, n: int)
    requires PlaceInv(s) && PushesOne(s, s', t0, id, c, n)
    ensures PlaceInv(s')
  {
    forall d, x | d in s'.cpus && x in s'.csds ensures PlaceOk(d, s'.cpus[d], x, s'.csds[x].place) {
      assert PlaceOk(d, s.cpus[d], x, s.csds[x].place);
    }
  }

  /** A queue that grows by one entry, with its call counted as issued. */
  lemma QueueGrow(c: CpuId, C: CpuState, csds: map<CsdId, Rec>, csds': map<CsdId, Rec>, calls: map<int, Call>, e: Entry, since: nat)
    requires CpuOk(c, C, csds, calls) && C.issued[e.func] == 0 && EntryOk(e, c, csds.Keys, calls)
    requires e.id in csds && csds' == csds[e.id := Rec(true, e.kind, e.func, Queued(c))]
    requires csds[e.id].kind == e.kind && csds[e.id].func == e.func
    ensures CpuOk(c, C.(queue := [e.id] + C.queue, since := since, issued := C.issued + multiset{e.func}), csds', calls)
  {
    var q, es := [e.id] + C.queue, Entries(C.queue, csds);
    GrowEntries(C.queue, csds, csds', e);
    assert forall i :: 0 <= i < |q| ==> Entries(q, csds')[i] == if i == 0 then e else es[i - 1];
    assert multiset(Funcs(Entries(q, csds'))) == multiset{e.func} + multiset(Funcs(es));
  }

  lemma GrowEntries(q: seq<CsdId>, csds: map<CsdId, Rec>, csds': map<CsdId, Rec>, e: Entry)
    requires QueueIn(q, csds) && e.id in csds && csds[e.id].kind == e.kind && csds[e.id].func == e.func
    requires csds'.Keys == csds.Keys
    requires forall id :: id in csds ==> csds'[id].kind == csds[id].kind && csds'[id].func == csds[id].func
    ensures Entries([e.id] + q, csds') == [e] + Entries(q, csds)
    ensures multiset(Funcs(Entries([e.id] + q, csds'))) == multiset{e.func} + multiset(Funcs(Entries(q, csds)))
  {
    assert Funcs([e] + Entries(q, csds)) == [e.func] + Funcs(Entries(q, csds));
  }

  lemma PushCpu(s: State, s': State, t0: Tid, id: CsdId, c: CpuId, n: int)
    requires PushesOne(s, s', t0, id, c, n) && CpuOk(c, s.cpus[c], s.csds, s.calls)
    ensures CpuOk(c, s'.cpus[c], s'.csds, s'.calls)
  {
    var e := Entry(id, s.csds[id].kind, n);
    assert s'.csds == s.csds[id := Rec(true, e.kind, n, Queued(c))];
    QueueGrow(c, s.cpus[c], s.csds, s'.csds, s.calls, e, s'.cpus[c].since);
  }

  lemma PushCpus(s: State, s': State, t0: Tid, id: CsdId, c: CpuId, n: int)
    requires CpuInv(s) && PushesOne(s, s', t0, id, c, n)
    ensures CpuInv(s')
  {
    forall d | d in s'.cpus ensures CpuOk(d, s'.cpus[d], s'.csds, s'.calls) {
      if d == c {
        PushCpu(s, s', t0, id, c, n);
      } else {
        CpuFrame(d, s.cpus[d], s.csds, s.calls, s'.csds, s'.calls);
      }
    }
  }

  lemma PushThreads(s: State, s': State, t0: Tid, id: CsdId, c: CpuId, n: int)
    requires ThreadInv(s) && IssuedInv(s) && PushesOne(s, s', t0, id, c, n)
    ensures ThreadInv(s') && IssuedInv(s')
  {
    forall t | t in s'.threads && t != t0
      ensures ThreadOk(t, s'.threads[t], s') && forall d :: d in s'.cpus ==> IssuedOk(s'.threads[t], d, s'.cpus[d])
    {
      OtherCall(s, t0, n, t);
      assert RecsKept(t, s.threads[t], s.csds, s'.csds);
      ThreadFrame(t, s.threads[t], s, s');
    }
  }

  /** Two threads never work on the same call. */
  lemma OtherCall(s: State, t0: Tid, n: int, t: Tid)
    requires ThreadInv(s) && t in s.threads && t != t0 && n in s.calls && s.calls[n].tid == t0
    ensures !s.threads[t].Idle? ==> s.threads[t].call != n
  {
    assert ThreadOk(t, s.threads[t], s);
  }

  lemma PushStacks(s: State, s': State, t0: Tid, id: CsdId, c: CpuId, n: int)
    requires StackInv(s) && PushesOne(s, s', t0, id, c, n)
    ensures StackInv(s')
  {
  }

  lemma PushKicks(s: State, s': State, t0: Tid, id: CsdId, c: CpuId, n: int)
    requires KickInv(s) && NumInv(s) && PushesOne(s, s', t0, id, c, n)
    ensures KickInv(s')
  {
    forall d | d in s'.cpus ensures KickOk(s', d) {
      if d == c && s.cpus[c].queue == [] {
        assert t0 in s'.threads && Owing(s'.threads[t0], c, s'.cpus[c].since);
      } else {
        KickKept(s, s', t0, d);
      }
    }
  }

  lemma ExecPushMoves(s: State, s': State, t: Tid)
    requires LocalInv(s, t) && DoExec(s, s', t) && s.threads[t].target != t.Cpu() && s.threads[t].target in s.online
    ensures var T := s.threads[t]; PushesOne(s, s', t, T.id, T.target, T.call)
  {
    var T := s.threads[t];
    assert IssuedOk(T, T.target, s.cpus[T.target]);
  }

  /** The thread after a push that found the queue empty (`first`) or not. */
  function Sends(T: Thread, c: CpuId, first: bool): Thread
    requires T.Many?
  {
    T.(stage := Looping, todo := T.todo - {c}, picked := T.picked + {c},
       owed := if first then T.owed + {c} else T.owed,
       nr := if first then T.nr + 1 else T.nr,
       last := if first then c else T.last)
  }

  lemma SendsOk(t: Tid, T: Thread, s: State, s': State, first: bool)
    requires T.Many? && T.stage.Holding? && ManyOk(t, T, s) && s'.online == s.online
    ensures ManyOk(t, Sends(T, T.stage.target, first), s')
  {
    var c, T' := T.stage.target, Sends(T, T.stage.target, first);
    assert T'.todo + T'.skipped + (T'.picked - {t.Cpu()}) == T.todo + T.skipped + (T.picked - {t.Cpu()});
    assert c !in T.owed;
  }

  lemma ManyPushLocal(s: State, s': State, t: Tid)
    requires LocalInv(s, t) && DoManyPush(s, s', t)
    ensures LocalInv(s', t)
  {
    var T := s.threads[t];
    SendsOk(t, T, s, s', s.cpus[T.stage.target].queue == []);
    forall c | c in s'.cpus ensures IssuedOk(s'.threads[t], c, s'.cpus[c]) {
      assert IssuedOk(T, c, s.cpus[c]);
    }
  }

  lemma ManyPushMoves(s: State, s': State, t: Tid, T: Thread, c: CpuId)
    requires t in s.threads && T == s.threads[t] && T.Many? && T.stage == Holding(c) && ThreadOk(t, T, s) && c in s.cpus
    requires IssuedOk(T, c, s.cpus[c]) && LocalInv(s', t) && DoManyPush(s, s', t)
    ensures PushesOne(s, s', t, Cfd(t.Cpu(), c), c, T.call)
  {
    assert c in T.todo + T.skipped + (T.picked - {t.Cpu()});
    assert EntryOk(Entry(Cfd(t.Cpu(), c), s.csds[Cfd(t.Cpu(), c)].kind, T.call), c, s.csds.Keys, s.calls);
  }

  lemma ManyPushKeeps(s: State, s': State, t: Tid)
    requires Inv(s) && DoManyPush(s, s', t)
    ensures Inv(s')
  {
    Localize(s, t);
    ManyPushLocal(s, s', t);
    ManyPushMoves(s, s', t, s.threads[t], s.threads[t].stage.target);
    PushKeeps(s, s', t, Cfd(t.Cpu(), s.threads[t].stage.target), s.threads[t].stage.target, s.threads[t].call);
  }

  // Steps that give a record back unused

  /** Thread t0 unlocks the record it holds. */
  ghost predicate DropsOne(s: State, s': State, t0: Tid, id: CsdId, n: int) {
    && t0 in s.threads && s'.threads.Keys == s.threads.Keys && id in s.csds
    && s.csds[id].locked && s.csds[id].place.Home? && s.csds[id].func == n
    && n in s.calls && s.calls[n].tid == t0
    && s' == Release(s, id).(threads := s'.threads)
    && (forall t :: t in s.threads && t != t0 ==> s'.threads[t] == s.threads[t])
    && Advances(s, s.threads[t0], s'.threads[t0])
    && Grips(t0, s.threads[t0], id) && !Gripping(s'.threads[t0])
    && LocalInv(s', t0)
  }

  lemma DropKeeps(s: State, s': State, t0: Tid, id: CsdId, n: int)
    requires Inv(s) && DropsOne(s, s', t0, id, n)
    ensures Inv(s')
  {
    DropRecs(s, s', t0, id, n);
    DropPlaces(s, s', t0, id, n);
    DropThreads(s, s', t0, id, n);
    DropCpus(s, s', t0, id, n);
    DropStacks(s, s', t0, id, n);
    DropKicks(s, s', t0, id, n);
    DropQuiet(s, s', t0, id, n);
    QuietKeeps(s, s', t0);
  }

  lemma DropKicks(s: State, s': State, t0: Tid, id: CsdId, n: int)
    requires KickInv(s) && DropsOne(s, s', t0, id, n)
    ensures KickInv(s')
  {
    forall c | c in s'.cpus ensures KickOk(s', c) {
      KickKept(s, s', t0, c);
    }
  }

  lemma DropQuiet(s: State, s': State, t0: Tid, id: CsdId, n: int)
    requires DropsOne(s, s', t0, id, n)
    ensures Quiet(s, s', t0)
  {
  }

  lemma DropRecs(s: State, s': State, t0: Tid, id: CsdId, n: int)
    requires RecInv(s) && DropsOne(s, s', t0, id, n)
    ensures RecInv(s')
  {
  }

  lemma DropPlaces(s: State, s': State, t0: Tid, id: CsdId, n: int)
    requires PlaceInv(s) && DropsOne(s, s', t0, id, n)
    ensures PlaceInv(s')
  {
    forall d, x | d in s'.cpus && x in s'.csds ensures PlaceOk(d, s'.cpus[d], x, s'.csds[x].place) {
      assert PlaceOk(d, s.cpus[d], x, s.csds[x].place);
    }
  }

  lemma DropThreads(s: State, s': State, t0: Tid, id: CsdId, n: int)
    requires ThreadInv(s) && IssuedInv(s) && DropsOne(s, s', t0, id, n)
    ensures ThreadInv(s') && IssuedInv(s')
  {
    forall t | t in s'.threads ensures ThreadOk(t, s'.threads[t], s') {
      if t != t0 {
        OtherCall(s, t0, n, t);
        ThreadFrame(t, s.threads[t], s, s');
      }
    }
  }

  lemma DropCpus(s: State, s': State, t0: Tid, id: CsdId, n: int)
    requires PlaceInv(s) && CpuInv(s) && DropsOne(s, s', t0, id, n)
    ensures CpuInv(s')
  {
    forall c | c in s'.cpus ensures CpuOk(c, s'.cpus[c], s'.csds, s'.calls) {
      assert PlaceOk(c, s.cpus[c], id, s.csds[id].place);
      HomeNotQueued(c, s.cpus[c], id);
      UnqueuedRec(c, s.cpus[c], s.csds, s.calls, s'.calls, id, s'.csds[id]);
    }
  }

  lemma DropStacks(s: State, s': State, t0: Tid, id: CsdId, n: int)
    requires StackInv(s) && DropsOne(s, s', t0, id, n)
    ensures StackInv(s')
  {
  }

  lemma ExecDropMoves(s: State, s': State, t: Tid)
    requires LocalInv(s, t) && DoExec(s, s', t)
    requires s.threads[t].target == t.Cpu() || s.threads[t].target !in s.online
    ensures DropsOne(s, s', t, s.threads[t].id, s.threads[t].call)
  {
  }

  lemma ExecKeeps(s: State, s': State, t: Tid)
    requires Inv(s) && DoExec(s, s', t)
    ensures Inv(s')
  {
    Localize(s, t);
    var T := s.threads[t];
    if T.target == t.Cpu() || T.target !in s.online {
      ExecDropMoves(s, s', t);
      DropKeeps(s, s', t, T.id, T.call);
    } else {
      ExecPushMoves(s, s', t);
      PushKeeps(s, s', t, T.id, T.target, T.call);
    }
  }

  // Local runs

  /** Thread t0 runs its call's function on its own CPU. */
  ghost predicate RunsOne(s: State, s': State, t0: Tid, c: CpuId, n: int) {
    && t0 in s.threads && s'.threads.Keys == s.threads.Keys && c in s.cpus
    && n in s.calls && s.calls[n].tid == t0 && s.cpus[c].issued[n] == 0
    && s' == Ran1(Issue(s, c, n), c, n).(threads := s'.threads)
    && (forall t :: t in s.threads && t != t0 ==> s'.threads[t] == s.threads[t])
    && Advances(s, s.threads[t0], s'.threads[t0])
    && !Gripping(s.threads[t0])
    && LocalInv(s', t0)
  }

  lemma RunKeeps(s: State, s': State, t0: Tid, c: CpuId, n: int)
    requires Inv(s) && RunsOne(s, s', t0, c, n)
    ensures Inv(s')
  {
    RunRecs(s, s', t0, c, n);
    RunPlaces(s, s', t0, c, n);
    RunCpus(s, s', t0, c, n);
    RunThreads(s, s', t0, c, n);
    RunKicks(s, s', t0, c, n);
    RunQuiet(s, s', t0, c, n);
    QuietKeeps(s, s', t0);
  }

  lemma RunQuiet(s: State, s': State, t0: Tid, c: CpuId, n: int)
    requires RunsOne(s, s', t0, c, n)
    ensures Quiet(s, s', t0)
  {
  }

  lemma RunRecs(s: State, s': State, t0: Tid, c: CpuId, n: int)
    requires RecInv(s) && StackInv(s) && RunsOne(s, s', t0, c, n)
    ensures RecInv(s') && StackInv(s')
  {
  }

  lemma RunKicks(s: State, s': State, t0: Tid, c: CpuId, n: int)
    requires KickInv(s) && RunsOne(s, s', t0, c, n)
    ensures KickInv(s')
  {
    forall d | d in s'.cpus ensures KickOk(s', d) {
      KickKept(s, s', t0, d);
    }
  }

  lemma PlaceSame(c: CpuId, C: CpuState, C': CpuState, id: CsdId, place: Place)
    requires PlaceOk(c, C, id, place) && C'.queue == C.queue && C'.flush == C.flush
    ensures PlaceOk(c, C', id, place)
  {
  }

  lemma RunPlaces(s: State, s': State, t0: Tid, c: CpuId, n: int)
    requires PlaceInv(s) && RunsOne(s, s', t0, c, n)
    ensures PlaceInv(s')
  {
    forall d, x | d in s'.cpus && x in s'.csds ensures PlaceOk(d, s'.cpus[d], x, s'.csds[x].place) {
      PlaceSame(d, s.cpus[d], s'.cpus[d], x, s.csds[x].place);
    }
  }

  lemma CpuRun(c: CpuId, C: CpuState, csds: map<CsdId, Rec>, calls: map<int, Call>, n: int)
    requires CpuOk(c, C, csds, calls) && C.issued[n] == 0 && n in calls
    ensures CpuOk(c, C.(issued := C.issued + multiset{n}, done := C.done + multiset{n}), csds, calls)
  {
    var q, j := multiset(Funcs(Entries(C.queue, csds))), Jobs(C.Plan());
    assert C.issued + multiset{n} == C.done + multiset{n} + q + j;
  }

  lemma RunCpus(s: State, s': State, t0: Tid, c: CpuId, n: int)
    requires CpuInv(s) && RunsOne(s, s', t0, c, n)
    ensures CpuInv(s')
  {
    forall d | d in s'.cpus ensures CpuOk(d, s'.cpus[d], s'.csds, s'.calls) {
      assert CpuOk(d, s.cpus[d], s.csds, s.calls);
      if d == c {
        CpuRun(c, s.cpus[c], s.csds, s.calls, n);
      }
    }
  }

  lemma RunThreads(s: State, s': State, t0: Tid, c: CpuId, n: int)
    requires ThreadInv(s) && IssuedInv(s) && RunsOne(s, s', t0, c, n)
    ensures ThreadInv(s') && IssuedInv(s')
  {
    forall t | t in s'.threads && t != t0
      ensures ThreadOk(t, s'.threads[t], s') && forall d :: d in s'.cpus ==> IssuedOk(s'.threads[t], d, s'.cpus[d])
    {
      OtherCall(s, t0, n, t);
      ThreadFrame(t, s.threads[t], s, s');
    }
  }

  lemma RunHereMoves(s: State, s': State, t: Tid)
    requires LocalInv(s, t) && DoRunHere(s, s', t)
    ensures RunsOne(s, s', t, t.Cpu(), s.threads[t].call)
  {
    assert IssuedOk(s.threads[t], t.Cpu(), s.cpus[t.Cpu()]);
  }

  lemma RunHereKeeps(s: State, s': State, t: Tid)
    requires Inv(s) && DoRunHere(s, s', t)
    ensures Inv(s')
  {
    Localize(s, t);
    RunHereMoves(s, s', t);
    RunKeeps(s, s', t, t.Cpu(), s.threads[t].call);
  }

  /** The thread once it has run locally, or not, and waits. */
  function WaitsNow(t: Tid, T: Thread, ran: bool): Thread
    requires T.Many?
  {
    T.(stage := Waits(if T.wait then T.picked else {}), picked := if ran then T.picked + {t.Cpu()} else T.picked)
  }

  lemma WaitsNowOk(t: Tid, T: Thread, s: State, s': State, ran: bool)
    requires T.Many? && T.stage.Sent? && ManyOk(t, T, s) && s'.online == s.online && s'.csds == s.csds
    requires ran <==> T.want.Here(t.Cpu(), T.mask)
    ensures ManyOk(t, WaitsNow(t, T, ran), s')
  {
    var T' := WaitsNow(t, T, ran);
    assert T'.picked - {t.Cpu()} == T.picked - {t.Cpu()} == T.picked;
  }

  lemma WaitsNowIssued(t: Tid, T: Thread, ran: bool, c: CpuId, C: CpuState, C': CpuState)
    requires T.Many? && t.Cpu() !in T.picked && IssuedOk(T, c, C)
    requires C'.issued == if ran && c == t.Cpu() then C.issued + multiset{T.call} else C.issued
    ensures IssuedOk(WaitsNow(t, T, ran), c, C')
  {
  }

  lemma ManyLocalOk(s: State, s': State, t: Tid)
    requires LocalInv(s, t) && DoManyLocal(s, s', t)
    ensures LocalInv(s', t)
  {
    var T := s.threads[t];
    var ran := T.want.Here(t.Cpu(), T.mask);
    assert s'.threads[t] == WaitsNow(t, T, ran) && s'.calls == s.calls;
    assert ThreadOk(t, s'.threads[t], s') by {
      WaitsNowOk(t, T, s, s', ran);
    }
    ManyLocalIssued(s, s', t);
  }

  lemma ManyLocalIssued(s: State, s': State, t: Tid)
    requires LocalInv(s, t) && DoManyLocal(s, s', t)
    ensures forall c :: c in s'.cpus ==> IssuedOk(s'.threads[t], c, s'.cpus[c])
  {
    var T := s.threads[t];
    var ran := T.want.Here(t.Cpu(), T.mask);
    assert s'.threads[t] == WaitsNow(t, T, ran);
    forall c | c in s'.cpus ensures IssuedOk(s'.threads[t], c, s'.cpus[c]) {
      WaitsNowIssued(t, T, ran, c, s.cpus[c], s'.cpus[c]);
    }
  }

  lemma ManyLocalMoves(s: State, s': State, t: Tid)
    requires LocalInv(s, t) && LocalInv(s', t) && DoManyLocal(s, s', t)
    ensures var T := s.threads[t];
            if T.want.Here(t.Cpu(), T.mask) then RunsOne(s, s', t, t.Cpu(), T.call) else OneThread(s, s', t)
  {
    assert IssuedOk(s.threads[t], t.Cpu(), s.cpus[t.Cpu()]);
  }

  lemma ManyLocalKeeps(s: State, s': State, t: Tid)
    requires Inv(s) && DoManyLocal(s, s', t)
    ensures Inv(s')
  {
    Localize(s, t);
    ManyLocalOk(s, s', t);
    ManyLocalMoves(s, s', t);
    var T := s.threads[t];
    if T.want.Here(t.Cpu(), T.mask) {
      RunKeeps(s, s', t, t.Cpu(), T.call);
    } else {
      ThreadOnly(s, s', t);
    }
  }

  // Interrupts

  /** Thread t0 sets pending interrupts, among them all it owed. */
  ghost predicate KicksSome(s: State, s': State, t0: Tid) {
    && t0 in s.threads && s'.threads.Keys == s.threads.Keys && s'.cpus.Keys == s.cpus.Keys
    && s' == s.(threads := s'.threads, cpus := s'.cpus)
    && (forall t :: t in s.threads && t != t0 ==> s'.threads[t] == s.threads[t])
    && (forall c :: c in s.cpus ==> s'.cpus[c] == s.cpus[c] || s'.cpus[c] == s.cpus[c].(ipi := true))
    && (forall c :: c in s.cpus && c in Owes(s.threads[t0]) ==> s'.cpus[c].ipi)
    && SameOrNewCall(s, s.threads[t0], s'.threads[t0]) && !Gripping(s.threads[t0])
    && LocalInv(s', t0)
  }

  lemma KickKeeps(s: State, s': State, t0: Tid)
    requires Inv(s) && KicksSome(s, s', t0)
    ensures Inv(s')
  {
    KickRecs(s, s', t0);
    KickStacks(s, s', t0);
    KickPlaces(s, s', t0);
    KickCpus(s, s', t0);
    KickThreads(s, s', t0);
    KickKicks(s, s', t0);
    KickQuiet(s, s', t0);
    QuietKeeps(s, s', t0);
  }

  lemma KickQuiet(s: State, s': State, t0: Tid)
    requires KicksSome(s, s', t0)
    ensures Quiet(s, s', t0)
  {
  }

  lemma KickRecs(s: State, s': State, t0: Tid)
    requires RecInv(s) && KicksSome(s, s', t0)
    ensures RecInv(s')
  {
  }

  lemma KickStacks(s: State, s': State, t0: Tid)
    requires StackInv(s) && KicksSome(s, s', t0)
    ensures StackInv(s')
  {
  }

  lemma KickKicks(s: State, s': State, t0: Tid)
    requires KickInv(s) && KicksSome(s, s', t0)
    ensures KickInv(s')
  {
    forall d | d in s'.cpus ensures KickOk(s', d) {
      KickKept(s, s', t0, d);
    }
  }

  lemma KickThreads(s: State, s': State, t0: Tid)
    requires ThreadInv(s) && IssuedInv(s) && KicksSome(s, s', t0)
    ensures ThreadInv(s') && IssuedInv(s')
  {
    forall t | t in s'.threads && t != t0
      ensures ThreadOk(t, s'.threads[t], s') && forall d :: d in s'.cpus ==> IssuedOk(s'.threads[t], d, s'.cpus[d])
    {
      ThreadFrame(t, s.threads[t], s, s');
    }
  }

  lemma KickPlaces(s: State, s': State, t0: Tid)
    requires PlaceInv(s) && KicksSome(s, s', t0)
    ensures PlaceInv(s')
  {
    forall d, x | d in s'.cpus && x in s'.csds ensures PlaceOk(d, s'.cpus[d], x, s'.csds[x].place) {
      assert PlaceOk(d, s.cpus[d], x, s.csds[x].place);
    }
  }

  lemma CpuIpi(c: CpuId, C: CpuState, csds: map<CsdId, Rec>, calls: map<int, Call>)
    requires CpuOk(c, C, csds, calls)
    ensures CpuOk(c, C.(ipi := true), csds, calls)
  {
  }

  lemma KickCpus(s: State, s': State, t0: Tid)
    requires CpuInv(s) && KicksSome(s, s', t0)
    ensures CpuInv(s')
  {
    forall d | d in s'.cpus ensures CpuOk(d, s'.cpus[d], s'.csds, s'.calls) {
      CpuIpi(d, s.cpus[d], s.csds, s.calls);
    }
  }

  lemma SentOk(s: State, s': State, t: Tid)
    requires LocalInv(s, t) && s.threads[t].Pushed? && s'.csds == s.csds && s'.calls == s.calls && s'.online == s.online
    requires t in s'.threads && var T := s.threads[t];
             s'.threads[t] == if T.wait then Spins(T.call, T.target, T.id) else Returned(T.call, false, false, {T.target}, {})
    requires forall c :: c in s'.cpus ==> c in s.cpus && s'.cpus[c].issued == s.cpus[c].issued
    ensures LocalInv(s', t)
  {
    forall c | c in s'.cpus ensures IssuedOk(s'.threads[t], c, s'.cpus[c]) {
      assert IssuedOk(s.threads[t], c, s.cpus[c]);
    }
  }

  lemma SendMoves(s: State, s': State, t: Tid)
    requires LocalInv(s, t) && DoSend(s, s', t)
    ensures KicksSome(s, s', t)
  {
    SentOk(s, s', t);
  }

  lemma SendKeeps(s: State, s': State, t: Tid)
    requires Inv(s) && DoSend(s, s', t)
    ensures Inv(s')
  {
    Localize(s, t);
    SendMoves(s, s', t);
    KickKeeps(s, s', t);
  }

  lemma Single<T>(a: set<T>, x: T)
    requires |a| == 1 && x in a
    ensures a == {x}
  {
    assert |a - {x}| == 0;
    assert a == (a - {x}) + {x};
  }

  /** Whatever the number of CPUs to interrupt, exactly those are. */
  lemma ManyCovers(s: State, T: Thread)
    requires T.Many? && T.nr == |T.owed| && (T.nr == 1 ==> T.last in T.owed)
    ensures (if T.nr == 0 then s else if T.nr == 1 then Kick(s, T.last) else KickAll(s, T.owed)).cpus == KickAll(s, T.owed).cpus
  {
    if T.nr == 1 {
      Single(T.owed, T.last);
    }
  }

  lemma ManySentOk(s: State, s': State, t: Tid, T: Thread)
    requires T.Many? && T.stage.Looping? && T.todo == {} && ThreadOk(t, T, s)
    requires s'.online == s.online && s'.calls == s.calls
    ensures ThreadOk(t, T.(stage := Sent), s')
  {
  }

  lemma ManyKicks(s: State, s': State, t: Tid)
    requires LocalInv(s, t) && s.threads[t].Many? && s.threads[t].stage.Looping? && s.threads[t].todo == {}
    requires s' == SetThread(KickAll(s, s.threads[t].owed), t, s.threads[t].(stage := Sent))
    ensures KicksSome(s, s', t)
  {
    ManySentOk(s, s', t, s.threads[t]);
  }

  lemma ManySendMoves(s: State, s': State, t: Tid)
    requires LocalInv(s, t) && DoManySend(s, s', t)
    ensures KicksSome(s, s', t)
  {
    var T := s.threads[t];
    assert s' == SetThread(KickAll(s, T.owed), t, T.(stage := Sent)) by {
      assert ThreadOk(t, T, s);
      ManyCovers(s, T);
    }
    ManyKicks(s, s', t);
  }

  lemma ManySendKeeps(s: State, s': State, t: Tid)
    requires Inv(s) && DoManySend(s, s', t)
    ensures Inv(s')
  {
    Localize(s, t);
    ManySendMoves(s, s', t);
    KickKeeps(s, s', t);
  }
}
