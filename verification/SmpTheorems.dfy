/** What cross-CPU calls promise, over every run. */
module SmpTheorems {
  import opened SmpFlush
  import opened SmpProtocol
  import opened SmpInvariant
  import opened SmpProofs
  import opened SmpReceiver

  datatype Run = Run(states: seq<State>, steps: seq<Step>)

  ghost predicate StepAt(run: Run, i: nat)
    requires |run.states| == |run.steps| + 1 && i < |run.steps|
  {
    NextStep(run.states[i], run.states[i + 1], run.steps[i])
  }

  ghost predicate IsRun(run: Run) {
    && |run.states| == |run.steps| + 1 && Init(run.states[0])
    && (forall i {:trigger StepAt(run, i)} :: 0 <= i < |run.steps| ==> StepAt(run, i))
  }

  lemma {:induction false} RunInvariant(run: Run, k: nat)
    requires IsRun(run) && k < |run.states|
    ensures Inv(run.states[k])
  {
    if k == 0 {
      InitEstablishes(run.states[0]);
    } else {
      RunInvariant(run, k - 1);
      assert StepAt(run, k - 1);
      StepKeeps(run.states[k - 1], run.states[k], run.steps[k - 1]);
    }
  }

  /** Where a queue is not empty, an interrupt is pending, a flush is about to take the queue, or a
      sender that found it empty has still to send the interrupt. */
  lemma KickPending(run: Run, k: nat, c: CpuId)
    requires IsRun(run) && k < |run.states| && c in run.states[k].cpus && run.states[k].cpus[c].queue != []
    ensures var s := run.states[k];
            s.cpus[c].ipi || s.cpus[c].flush.Entered? || exists t :: t in s.threads && c in Owes(s.threads[t])
  {
    var s := run.states[k];
    RunInvariant(run, k);
    assert KickOk(s, c);
    if !s.cpus[c].ipi && !s.cpus[c].flush.Entered? {
      var t :| t in s.threads && Owing(s.threads[t], c, s.cpus[c].since);
      assert c in Owes(s.threads[t]);
    }
  }

  // What a finished call has done

  lemma {:induction false} NoJob(tr: seq<Event>, n: int)
    requires forall p :: 0 <= p < |tr| && !tr[p].Unlocked? ==> tr[p].func != n
    ensures Jobs(tr)[n] == 0
  {
    if tr != [] {
      NoJob(tr[1..], n);
    }
  }

  lemma {:induction false} NoRelease(tr: seq<Event>, id: CsdId)
    requires Frees(tr)[id] == 0
    ensures forall p :: 0 <= p < |tr| ==> tr[p] != Unlocked(id)
  {
    if tr != [] {
      NoRelease(tr[1..], id);
      forall p | 0 <= p < |tr| ensures tr[p] != Unlocked(id) {
        assert p > 0 ==> tr[p] == tr[1..][p - 1];
      }
    }
  }

  /** A waiting call whose record for CPU c is not queued there has no entry in that queue. */
  lemma NothingQueued(c: CpuId, C: CpuState, csds: map<CsdId, Rec>, calls: map<int, Call>, n: int)
    requires CpuOk(c, C, csds, calls) && WaitsFor(calls, n)
    requires calls[n].tid.Cpu() == c || CsdFor(calls[n], c) !in C.queue
    ensures multiset(Funcs(Entries(C.queue, csds)))[n] == 0
  {
    var es := Entries(C.queue, csds);
    forall i | 0 <= i < |es| ensures Funcs(es)[i] != n {
      assert EntryOk(es[i], c, csds.Keys, calls);
      assert C.queue[i] in C.queue;
    }
    assert n !in Funcs(es);
  }

  /** Nor, when the record is not due for release there, an event in that flush. */
  lemma NothingPlanned(c: CpuId, tr: seq<Event>, ids: set<CsdId>, calls: map<int, Call>, n: int)
    requires TraceOk(tr, c, ids, calls) && WaitsFor(calls, n)
    requires calls[n].tid.Cpu() == c || Frees(tr)[CsdFor(calls[n], c)] == 0
    ensures Jobs(tr)[n] == 0
  {
    if calls[n].tid.Cpu() != c {
      NoRelease(tr, CsdFor(calls[n], c));
    }
    forall p | 0 <= p < |tr| && !tr[p].Unlocked? ensures tr[p].func != n {
      assert EventOk(tr[p], c, ids, calls);
      assert tr[p].Ran? && WaitsFor(calls, tr[p].func) ==> FreedNext(tr, p);
    }
    NoJob(tr, n);
  }

  lemma DoneWhenFree(c: CpuId, C: CpuState, csds: map<CsdId, Rec>, calls: map<int, Call>, n: int)
    requires CpuOk(c, C, csds, calls) && WaitsFor(calls, n)
    requires calls[n].tid.Cpu() == c || Away(C, CsdFor(calls[n], c))
    ensures C.done[n] == C.issued[n]
  {
    NothingQueued(c, C, csds, calls, n);
    NothingPlanned(c, C.Plan(), csds.Keys, calls, n);
  }

  /** CPU state C neither queues record `id` nor is due to release it. */
  ghost predicate Away(C: CpuState, id: CsdId) {
    id !in C.queue && Frees(C.Plan())[id] == 0
  }

  lemma FreeIsAway(s: State, c: CpuId, id: CsdId)
    requires RecInv(s) && PlaceInv(s) && CpuInv(s) && c in s.cpus && Unlocked1(s.csds, id)
    ensures Away(s.cpus[c], id)
  {
    if id in s.csds {
      assert PlaceOk(c, s.cpus[c], id, s.csds[id].place) && RecOk(s.csds[id], s.cpus.Keys);
    } else {
      assert CpuOk(c, s.cpus[c], s.csds, s.calls);
      UnknownNotFreed(s.cpus[c].Plan(), c, s.csds.Keys, s.calls, id);
    }
  }

  lemma {:induction false} UnknownNotFreed(tr: seq<Event>, c: CpuId, ids: set<CsdId>, calls: map<int, Call>, id: CsdId)
    requires TraceOk(tr, c, ids, calls) && id !in ids
    ensures Frees(tr)[id] == 0
  {
    if tr != [] {
      assert EventOk(tr[0], c, ids, calls);
      TraceOkTail(tr, c, ids, calls);
      UnknownNotFreed(tr[1..], c, ids, calls, id);
    }
  }

  /** Thread T has finished its waiting call: the function has run exactly once on each CPU the
      call reached and on no other, and every record it used is free and in no queue. */
  ghost predicate Finished(T: Thread, call: Call, online: set<CpuId>, cpus: map<CpuId, CpuState>)
    requires T.Returned?
  {
    && Reached(call, online, T.err, T.picked, T.skipped)
    && (forall c :: c in cpus ==> cpus[c].done[T.call] == if c in T.picked then 1 else 0)
    && (forall c, d :: c in T.picked && c != call.tid.Cpu() && d in cpus ==> Away(cpus[d], CsdFor(call, c)))
  }

  /** `csd_lock_wait` works. */
  lemma WaitGuarantee(run: Run, k: nat, t: Tid)
    requires IsRun(run) && k < |run.states| && t in run.states[k].threads
    requires run.states[k].threads[t].Returned? && run.states[k].threads[t].wait
    ensures var s := run.states[k];
            var T := s.threads[t];
            T.call in s.calls && s.calls[T.call].tid == t && Finished(T, s.calls[T.call], s.online, s.cpus)
  {
    RunInvariant(run, k);
    Localize(run.states[k], t);
    ReturnedDone(run.states[k], t, run.states[k].threads[t]);
  }

  lemma ReturnedDone(s: State, t: Tid, T: Thread)
    requires RecInv(s) && PlaceInv(s) && CpuInv(s) && ThreadOk(t, T, s) && T.Returned? && T.wait
    requires forall c :: c in s.cpus ==> IssuedOk(T, c, s.cpus[c])
    ensures T.call in s.calls && s.calls[T.call].tid == t && Finished(T, s.calls[T.call], s.online, s.cpus)
  {
    var call := s.calls[T.call];
    forall c, d | c in T.picked && c != t.Cpu() && d in s.cpus ensures Away(s.cpus[d], CsdFor(call, c)) {
      assert Unlocked1(s.csds, CsdFor(call, c));
      FreeIsAway(s, d, CsdFor(call, c));
    }
    forall c | c in s.cpus ensures s.cpus[c].done[T.call] == if c in T.picked then 1 else 0 {
      ReturnedAt(T, call, c, s.cpus[c], s.csds, s.calls);
    }
  }

  lemma ReturnedAt(T: Thread, call: Call, c: CpuId, C: CpuState, csds: map<CsdId, Rec>, calls: map<int, Call>)
    requires T.Returned? && T.call in calls && call == calls[T.call] && call.wait && IssuedOk(T, c, C) && CpuOk(c, C, csds, calls)
    requires c in T.picked && c != call.tid.Cpu() ==> Away(C, CsdFor(call, c))
    ensures C.done[T.call] == if c in T.picked then 1 else 0
  {
    if c in T.picked {
      DoneWhenFree(c, C, csds, calls, T.call);
    }
  }

  /** Whatever the call, its function runs at most once per CPU, and only where it was issued. */
  lemma AtMostOnce(run: Run, k: nat, c: CpuId, n: int)
    requires IsRun(run) && k < |run.states| && c in run.states[k].cpus
    ensures run.states[k].cpus[c].done[n] <= run.states[k].cpus[c].issued[n] <= 1
  {
    RunInvariant(run, k);
    assert CpuOk(c, run.states[k].cpus[c], run.states[k].csds, run.states[k].calls);
  }

  /** A queued record is locked, stands in one queue only and there once; so two senders never
      link the same record. */
  lemma QueuedOnce(run: Run, k: nat, c: CpuId, id: CsdId)
    requires IsRun(run) && k < |run.states| && c in run.states[k].cpus && id in run.states[k].cpus[c].queue
    ensures var s := run.states[k];
            && id in s.csds && s.csds[id].locked && multiset(s.cpus[c].queue)[id] == 1
            && forall d :: d in s.cpus ==> Frees(s.cpus[d].Plan())[id] == 0 && (d != c ==> id !in s.cpus[d].queue)
  {
    var s := run.states[k];
    RunInvariant(run, k);
    assert CpuOk(c, s.cpus[c], s.csds, s.calls);
    QueuedCall(c, s.cpus[c], s.csds, s.calls, id);
    assert PlaceOk(c, s.cpus[c], id, s.csds[id].place) && RecOk(s.csds[id], s.cpus.Keys);
    forall d | d in s.cpus ensures Frees(s.cpus[d].Plan())[id] == 0 && (d != c ==> id !in s.cpus[d].queue) {
      assert PlaceOk(d, s.cpus[d], id, s.csds[id].place);
    }
  }

  // In terms of the arguments of a call

  /** A call keeps its number and its arguments. */
  lemma CallsKept(s: State, s': State, step: Step)
    requires NumInv(s) && NextStep(s, s', step)
    ensures Extends(s.calls, s'.calls)
  {
    assert |s.calls| !in s.calls;
  }

  lemma {:induction false} CallStays(run: Run, i: nat, j: nat, n: int)
    requires IsRun(run) && i <= j < |run.states| && n in run.states[i].calls
    ensures n in run.states[j].calls && run.states[j].calls[n] == run.states[i].calls[n]
  {
    if i < j {
      CallStays(run, i, j - 1, n);
      RunInvariant(run, j - 1);
      assert StepAt(run, j - 1);
      CallsKept(run.states[j - 1], run.states[j], run.steps[j - 1]);
    }
  }

  /** Call n, started by step k on the given CPU, has returned by state j. */
  ghost predicate ReturnedBy(run: Run, k: nat, j: nat, cpu: CpuId, n: int) {
    && IsRun(run) && k < |run.steps| && k < j < |run.states| && Task(cpu) in run.states[j].threads
    && var T := run.states[j].threads[Task(cpu)];
    && T.Returned? && T.call == n
  }

  lemma StartRecords(run: Run, k: nat)
    requires IsRun(run) && k < |run.steps|
    ensures match run.steps[k]
            case StartSingleStep(cpu, target, wait, m) =>
              m in run.states[k + 1].calls && run.states[k + 1].calls[m] == Call(Task(cpu), wait, false, {target}, PLAIN)
            case StartManyStep(cpu, mask, wait, want, m) =>
              m in run.states[k + 1].calls && run.states[k + 1].calls[m] == Call(Task(cpu), wait, true, mask, want)
            case _ => true
  {
    assert StepAt(run, k);
  }

  lemma ReturnedFinished(run: Run, k: nat, j: nat, cpu: CpuId, n: int, call: Call)
    requires ReturnedBy(run, k, j, cpu, n) && n in run.states[k + 1].calls && call == run.states[k + 1].calls[n] && call.wait
    ensures Finished(run.states[j].threads[Task(cpu)], call, run.states[j].online, run.states[j].cpus)
  {
    CallStays(run, k + 1, j, n);
    ReturnedWaits(run, j, Task(cpu));
    WaitGuarantee(run, j, Task(cpu));
  }

  lemma ReturnedWaits(run: Run, j: nat, t: Tid)
    requires IsRun(run) && j < |run.states| && t in run.states[j].threads && run.states[j].threads[t].Returned?
    ensures var s := run.states[j]; s.threads[t].call in s.calls && s.threads[t].wait == s.calls[s.threads[t].call].wait
  {
    RunInvariant(run, j);
    Localize(run.states[j], t);
    WaitsAsAsked(run.states[j], t, run.states[j].threads[t]);
  }

  lemma WaitsAsAsked(s: State, t: Tid, T: Thread)
    requires ThreadOk(t, T, s) && T.Returned?
    ensures T.call in s.calls && T.wait == s.calls[T.call].wait
  {
  }

  /** Where the function of a finished call has run. */
  lemma FinishedAt(T: Thread, call: Call, online: set<CpuId>, cpus: map<CpuId, CpuState>, c: CpuId)
    requires T.Returned? && Finished(T, call, online, cpus) && c in cpus
    ensures var here := call.tid.Cpu();
            if call.many
            then cpus[c].done[T.call] ==
                 if c in call.mask && c in call.want.accepts && (if c == here then call.want.local else c in online) then 1 else 0
            else
              && (T.err <==> call.mask !! online + {here})
              && cpus[c].done[T.call] == if !T.err && c in call.mask then 1 else 0
  {
    var here := call.tid.Cpu();
    assert c in T.picked - {here} <==> c in T.picked && c != here;
    if call.many {
      assert c in call.mask * online * call.want.accepts - {here} <==> c in call.mask && c in online && c in call.want.accepts && c != here;
    }
  }

  /** When a waiting `smp_call_function_many_cond` has returned, its function has run once on every
      other online CPU of the mask that the condition accepts, once on the calling CPU if that was
      wanted, in the mask and accepted, and nowhere else. */
  lemma ManyDone(run: Run, k: nat, j: nat, cpu: CpuId, mask: set<CpuId>, local: bool, accepts: set<CpuId>, n: int, c: CpuId)
    requires ReturnedBy(run, k, j, cpu, n) && run.steps[k] == StartManyStep(cpu, mask, true, Want(local, accepts), n)
    requires c in run.states[j].cpus
    ensures run.states[j].cpus[c].done[n] ==
            if c in mask && c in accepts && (if c == cpu then local else c in run.states[j].online) then 1 else 0
  {
    var s, call := run.states[j], Call(Task(cpu), true, true, mask, Want(local, accepts));
    StartRecords(run, k);
    ReturnedFinished(run, k, j, cpu, n, call);
    FinishedAt(s.threads[Task(cpu)], call, s.online, s.cpus, c);
  }

  /** When a waiting `smp_call_function_single` has returned, its function has run once on the target
      and nowhere else; or the target is another CPU and offline, and that is what it returned. */
  lemma SingleDone(run: Run, k: nat, j: nat, cpu: CpuId, target: CpuId, n: int, c: CpuId)
    requires ReturnedBy(run, k, j, cpu, n) && run.steps[k] == StartSingleStep(cpu, target, true, n)
    requires c in run.states[j].cpus
    ensures var s := run.states[j];
            var fails := target != cpu && target !in s.online;
            && (s.threads[Task(cpu)].err <==> fails)
            && s.cpus[c].done[n] == if !fails && c == target then 1 else 0
  {
    var s, call := run.states[j], Call(Task(cpu), true, false, {target}, PLAIN);
    StartRecords(run, k);
    ReturnedFinished(run, k, j, cpu, n, call);
    FinishedAt(s.threads[Task(cpu)], call, s.online, s.cpus, c);
  }
}
