/** Cross-CPU function calls as a transition system.

    Each CPU has a queue of call records, a pending-IPI flag and a flush that works through the
    trace proved in `SmpFlush`.  One task per CPU makes `smp_call_function_single` and
    `smp_call_function_many_cond` calls; any number of embedded records are queued by
    `smp_call_function_single_async`, irq_work and remote wakeups.  A call is identified by a
    number, which is the function its records carry.

    Calls are numbered in the order they start.  `place`, `calls`, `since`, `issued` and `done` are
    history: no step depends on them. */
module SmpProtocol {
  import opened SmpFlush

  type CpuId = nat

  datatype Place = Home | Queued(cpu: CpuId) | Detached(cpu: CpuId)

  datatype Rec = Rec(locked: bool, kind: Kind, func: int, place: Place)

  datatype Flusher = Off | Entered | Draining(plan: seq<Event>)

  /** `issued` and `done` hold, per CPU, the calls queued to it and the calls completed on it;
      `since` is the number of calls that had started when the queue last became non-empty. */
  datatype CpuState = CpuState(queue: seq<CsdId>, since: nat, ipi: bool, flush: Flusher,
                               issued: multiset<int>, done: multiset<int>)
  {
    function Plan(): seq<Event> { if flush.Draining? then flush.plan else [] }
  }

  datatype Tid = Task(cpu: CpuId) | Irq(cpu: CpuId, n: nat) {
    function Cpu(): CpuId { cpu }
  }

  datatype Stage = Looping | Holding(target: CpuId) | Sent | Waits(left: set<CpuId>)

  /** Whether to run on the calling CPU too (SCF_RUN_LOCAL), and the CPUs the condition accepts. */
  datatype Want = Want(local: bool, accepts: set<CpuId>) {
    predicate Here(cpu: CpuId, mask: set<CpuId>) { local && cpu in mask && cpu in accepts }
  }

  const PLAIN := Want(false, {})

  /** A sender.  `picked` are the CPUs the call has been issued to. */
  datatype Thread =
    | Idle
    | Ready(call: int, target: CpuId, id: CsdId, wait: bool)
    | RunsHere(call: int, wait: bool)
    | Pushed(call: int, target: CpuId, id: CsdId, wait: bool, owes: bool)
    | Spins(call: int, target: CpuId, id: CsdId)
    | Many(call: int, wait: bool, want: Want, mask: set<CpuId>, stage: Stage,
           todo: set<CpuId>, skipped: set<CpuId>, picked: set<CpuId>, owed: set<CpuId>, nr: nat, last: CpuId)
    | Returned(call: int, wait: bool, err: bool, picked: set<CpuId>, skipped: set<CpuId>)

  /** Who made the call, whether it waits, whether it is a many-CPU call, the CPUs asked for, and what
      else a many-CPU call wants. */
  datatype Call = Call(tid: Tid, wait: bool, many: bool, mask: set<CpuId>, want: Want)

  datatype State = State(
    online: set<CpuId>,
    csds: map<CsdId, Rec>,
    cpus: map<CpuId, CpuState>,
    threads: map<Tid, Thread>,
    calls: map<int, Call>)

  /** The record a waiting call uses for CPU c. */
  function CsdFor(call: Call, c: CpuId): CsdId {
    if call.many then Cfd(call.tid.Cpu(), c) else Stack(call.tid.Cpu())
  }

  /** CPUs whose queue this sender found empty and has not yet interrupted. */
  function Owes(T: Thread): set<CpuId> {
    match T
    case Pushed(_, target, _, _, owes) => if owes then {target} else {}
    case Many(_, _, _, _, stage, _, _, _, owed, _, _) => if stage.Looping? || stage.Holding? then owed else {}
    case _ => {}
  }

  function Entries(q: seq<CsdId>, csds: map<CsdId, Rec>): seq<Entry>
    requires forall i :: 0 <= i < |q| ==> q[i] in csds
  {
    seq(|q|, i requires 0 <= i < |q| => Entry(q[i], csds[q[i]].kind, csds[q[i]].func))
  }

  ghost predicate Init(s: State) {
    && s.calls == map[] && s.online <= s.cpus.Keys
    && (forall cpu :: Stack(cpu) in s.csds ==> Task(cpu) in s.threads)
    && (forall t :: t in s.threads ==> t.Cpu() in s.cpus)
    && (forall cpu, c :: Task(cpu) in s.threads && c in s.online ==> Cfd(cpu, c) in s.csds)
    && (forall id :: id in s.csds ==> s.csds[id] == Rec(false, Async, 0, Home))
    && (forall c :: c in s.cpus ==> s.cpus[c] == CpuState([], 0, false, Off, multiset{}, multiset{}))
    && (forall t :: t in s.threads ==> s.threads[t].Idle?)
  }

  predicate Resting(s: State, t: Tid) {
    t in s.threads && (s.threads[t].Idle? || s.threads[t].Returned?)
  }

  // Sender steps

  /** `llist_add`. */
  function Push(s: State, id: CsdId, c: CpuId, n: int): State
    requires id in s.csds && c in s.cpus
  {
    var C := s.cpus[c];
    s.(csds := s.csds[id := s.csds[id].(place := Queued(c))],
       cpus := s.cpus[c := C.(queue := [id] + C.queue, since := if C.queue == [] then |s.calls| else C.since, issued := C.issued + multiset{n})])
  }

  function Kick(s: State, c: CpuId): State {
    if c in s.cpus then s.(cpus := s.cpus[c := s.cpus[c].(ipi := true)]) else s
  }

  function KickAll(s: State, cs: set<CpuId>): State {
    s.(cpus := map c | c in s.cpus :: if c in cs then s.cpus[c].(ipi := true) else s.cpus[c])
  }

  /** `csd_unlock`: lock and type are cleared together. */
  function Release(s: State, id: CsdId): State
    requires id in s.csds
  {
    s.(csds := s.csds[id := s.csds[id].(locked := false, kind := Async, place := Home)])
  }

  function Ran1(s: State, c: CpuId, n: int): State
    requires c in s.cpus
  {
    s.(cpus := s.cpus[c := s.cpus[c].(done := s.cpus[c].done + multiset{n})])
  }

  function Issue(s: State, c: CpuId, n: int): State
    requires c in s.cpus
  {
    s.(cpus := s.cpus[c := s.cpus[c].(issued := s.cpus[c].issued + multiset{n})])
  }

  function SetThread(s: State, t: Tid, T: Thread): State {
    s.(threads := s.threads[t := T])
  }

  /** `smp_call_function_single`: the stack record of a waiting call is simply initialised; the
      per-CPU record of the other kind is locked first, which waits for its last use to end. */
  predicate DoStartSingle(s: State, s': State, cpu: CpuId, target: CpuId, wait: bool, n: int) {
    var t, id := Task(cpu), if wait then Stack(cpu) else PerCpu(cpu);
    && Resting(s, t) && n == |s.calls| && id in s.csds && cpu in s.cpus
    && (!wait ==> !s.csds[id].locked)
    && s' == SetThread(s, t, Ready(n, target, id, wait)).(
               csds := s.csds[id := s.csds[id].(locked := true, kind := if wait then Sync else s.csds[id].kind, func := n)],
               calls := s.calls[n := Call(t, wait, false, {target}, PLAIN)])
  }

  /** `smp_call_function_single_async`, and the irq_work and wakeup paths that queue directly. */
  predicate DoStartEmbedded(s: State, s': State, t: Tid, k: nat, target: CpuId, kind: Kind, n: int) {
    var id := Embedded(k);
    && t.Irq? && t.n == k && Resting(s, t) && n == |s.calls| && id in s.csds && t.cpu in s.cpus
    && kind != Sync && (kind != Async ==> target in s.online && target != t.cpu)
    && if s.csds[id].locked then s' == s   // -EBUSY
       else s' == SetThread(s, t, Ready(n, target, id, false)).(
                    csds := s.csds[id := s.csds[id].(locked := true, kind := kind, func := n)],
                    calls := s.calls[n := Call(t, false, false, {target}, PLAIN)])
  }

  /** `generic_exec_single`. */
  predicate DoExec(s: State, s': State, t: Tid) {
    && t in s.threads && s.threads[t].Ready?
    && var T := s.threads[t];
    && T.id in s.csds
    && if T.target == t.Cpu() then s' == SetThread(Release(s, T.id), t, RunsHere(T.call, T.wait))
       else if T.target !in s.online then s' == SetThread(Release(s, T.id), t, Returned(T.call, T.wait, true, {}, {}))
       else T.target in s.cpus
            && s' == SetThread(Push(s, T.id, T.target, T.call), t,
                               Pushed(T.call, T.target, T.id, T.wait, s.cpus[T.target].queue == []))
  }

  predicate DoRunHere(s: State, s': State, t: Tid) {
    && t in s.threads && s.threads[t].RunsHere? && t.Cpu() in s.cpus
    && var T := s.threads[t];
    && s' == SetThread(Ran1(Issue(s, t.Cpu(), T.call), t.Cpu(), T.call), t, Returned(T.call, T.wait, false, {t.Cpu()}, {}))
  }

  predicate DoSend(s: State, s': State, t: Tid) {
    && t in s.threads && s.threads[t].Pushed?
    && var T := s.threads[t];
    && s' == SetThread(if T.owes then Kick(s, T.target) else s, t,
                       if T.wait then Spins(T.call, T.target, T.id) else Returned(T.call, false, false, {T.target}, {}))
  }

  /** `csd_lock_wait` ends. */
  predicate DoWaited(s: State, s': State, t: Tid) {
    && t in s.threads && s.threads[t].Spins?
    && var T := s.threads[t];
    && T.id in s.csds && !s.csds[T.id].locked
    && s' == SetThread(s, t, Returned(T.call, true, false, {T.target}, {}))
  }

  predicate DoStartMany(s: State, s': State, cpu: CpuId, mask: set<CpuId>, wait: bool, want: Want, n: int) {
    var t := Task(cpu);
    && Resting(s, t) && n == |s.calls| && cpu in s.cpus
    && s' == SetThread(s, t, Many(n, wait, want, mask, Looping, mask * s.online - {cpu}, {}, {}, {}, 0, 0)).(
               calls := s.calls[n := Call(t, wait, true, mask, want)])
  }

  predicate IsMany(s: State, t: Tid) { t in s.threads && s.threads[t].Many? }

  /** `for_each_cpu` takes the CPUs of a mask in order: c comes next. */
  ghost predicate Least(c: CpuId, mask: set<CpuId>) {
    c in mask && forall d :: d in mask ==> c <= d
  }

  /** `cond_func` rejects the CPU. */
  ghost predicate DoManySkip(s: State, s': State, t: Tid, c: CpuId) {
    && IsMany(s, t) && s.threads[t].stage.Looping? && Least(c, s.threads[t].todo)
    && var T := s.threads[t];
    && c !in T.want.accepts
    && s' == SetThread(s, t, T.(todo := T.todo - {c}, skipped := T.skipped + {c}))
  }

  ghost predicate DoManyLock(s: State, s': State, t: Tid, c: CpuId) {
    && IsMany(s, t) && s.threads[t].stage.Looping? && Least(c, s.threads[t].todo)
    && var T, id := s.threads[t], Cfd(t.Cpu(), c);
    && c in T.want.accepts && id in s.csds && !s.csds[id].locked
    && s' == SetThread(s, t, T.(stage := Holding(c))).(
               csds := s.csds[id := s.csds[id].(locked := true, kind := if T.wait then Sync else s.csds[id].kind, func := T.call)])
  }

  predicate DoManyPush(s: State, s': State, t: Tid) {
    && IsMany(s, t) && s.threads[t].stage.Holding?
    && var T := s.threads[t];
    && var c := T.stage.target;
    && var id, first := Cfd(t.Cpu(), c), c in s.cpus && s.cpus[c].queue == [];
    && id in s.csds && c in s.cpus
    && s' == SetThread(Push(s, id, c, T.call), t,
               T.(stage := Looping, todo := T.todo - {c}, picked := T.picked + {c},
                  owed := if first then T.owed + {c} else T.owed,
                  nr := if first then T.nr + 1 else T.nr,
                  last := if first then c else T.last))
  }

  /** No IPI, one IPI, or the mask IPI. */
  predicate DoManySend(s: State, s': State, t: Tid) {
    && IsMany(s, t) && s.threads[t].stage.Looping? && s.threads[t].todo == {}
    && var T := s.threads[t];
    && s' == SetThread(if T.nr == 0 then s else if T.nr == 1 then Kick(s, T.last) else KickAll(s, T.owed), t,
                       T.(stage := Sent))
  }

  /** The optional local run, then the wait over the CPUs still in the mask. */
  predicate DoManyLocal(s: State, s': State, t: Tid) {
    && IsMany(s, t) && s.threads[t].stage.Sent? && t.Cpu() in s.cpus
    && var T, here := s.threads[t], t.Cpu();
    && var wanted := if T.wait then T.picked else {};
    && if T.want.Here(here, T.mask)
       then s' == SetThread(Ran1(Issue(s, here, T.call), here, T.call), t,
                            T.(stage := Waits(wanted), picked := T.picked + {here}))
       else s' == SetThread(s, t, T.(stage := Waits(wanted)))
  }

  ghost predicate DoManyWaited(s: State, s': State, t: Tid, c: CpuId) {
    && IsMany(s, t) && s.threads[t].stage.Waits? && Least(c, s.threads[t].stage.left)
    && var T, id := s.threads[t], Cfd(t.Cpu(), c);
    && id in s.csds && !s.csds[id].locked
    && s' == SetThread(s, t, T.(stage := Waits(T.stage.left - {c})))
  }

  predicate DoManyReturn(s: State, s': State, t: Tid) {
    && IsMany(s, t) && s.threads[t].stage == Waits({})
    && var T := s.threads[t];
    && s' == SetThread(s, t, Returned(T.call, T.wait, false, T.picked, T.skipped))
  }

  // Receiver steps

  /** The IPI is taken, or the idle loop or the stopper flushes of its own accord. */
  predicate DoEnter(s: State, s': State, c: CpuId, byIpi: bool) {
    && c in s.cpus && s.cpus[c].flush.Off? && (byIpi ==> s.cpus[c].ipi)
    && s' == s.(cpus := s.cpus[c := s.cpus[c].(flush := Entered, ipi := if byIpi then false else s.cpus[c].ipi)])
  }

  /** `llist_del_all`; what follows is the trace of `SmpFlush.Cpu.Flush`. */
  predicate DoDetach(s: State, s': State, c: CpuId) {
    && c in s.cpus && s.cpus[c].flush.Entered?
    && var C := s.cpus[c];
    && (forall i :: 0 <= i < |C.queue| ==> C.queue[i] in s.csds)
    && s' == s.(cpus := s.cpus[c := C.(queue := [], flush := Draining(FlushTrace(Reverse(Entries(C.queue, s.csds)))))],
                csds := map id | id in s.csds :: if id in C.queue then s.csds[id].(place := Detached(c)) else s.csds[id])
  }

  predicate DoEvent(s: State, s': State, c: CpuId) {
    && c in s.cpus && s.cpus[c].flush.Draining? && s.cpus[c].flush.plan != []
    && var C := s.cpus[c];
    && var e, u := C.flush.plan[0], s.(cpus := s.cpus[c := C.(flush := Draining(C.flush.plan[1..]))]);
    && e.id in s.csds
    && match e
       case Ran(_, n) => s' == Ran1(u, c, n)
       case Unlocked(id) => s' == Release(u, id)
       case RanIrqWork(id, n) => s' == Release(Ran1(u, c, n), id)
       case Woke(id, n) => s' == Release(Ran1(u, c, n), id)
  }

  predicate DoLeave(s: State, s': State, c: CpuId) {
    && c in s.cpus && s.cpus[c].flush == Draining([])
    && s' == s.(cpus := s.cpus[c := s.cpus[c].(flush := Off)])
  }

  datatype Step =
    | StartSingleStep(cpu: CpuId, target: CpuId, wait: bool, n: int)
    | StartEmbeddedStep(t: Tid, k: nat, target: CpuId, kind: Kind, n: int)
    | ExecStep(t: Tid)
    | RunHereStep(t: Tid)
    | SendStep(t: Tid)
    | WaitedStep(t: Tid)
    | StartManyStep(cpu: CpuId, mask: set<CpuId>, wait: bool, want: Want, n: int)
    | ManySkipStep(t: Tid, c: CpuId)
    | ManyLockStep(t: Tid, c: CpuId)
    | ManyPushStep(t: Tid)
    | ManySendStep(t: Tid)
    | ManyLocalStep(t: Tid)
    | ManyWaitedStep(t: Tid, c: CpuId)
    | ManyReturnStep(t: Tid)
    | EnterStep(c: CpuId, byIpi: bool)
    | DetachStep(c: CpuId)
    | EventStep(c: CpuId)
    | LeaveStep(c: CpuId)

  ghost predicate NextStep(s: State, s': State, step: Step) {
    match step
    case StartSingleStep(cpu, target, wait, n) => DoStartSingle(s, s', cpu, target, wait, n)
    case StartEmbeddedStep(t, k, target, kind, n) => DoStartEmbedded(s, s', t, k, target, kind, n)
    case ExecStep(t) => DoExec(s, s', t)
    case RunHereStep(t) => DoRunHere(s, s', t)
    case SendStep(t) => DoSend(s, s', t)
    case WaitedStep(t) => DoWaited(s, s', t)
    case StartManyStep(cpu, mask, wait, want, n) => DoStartMany(s, s', cpu, mask, wait, want, n)
    case ManySkipStep(t, c) => DoManySkip(s, s', t, c)
    case ManyLockStep(t, c) => DoManyLock(s, s', t, c)
    case ManyPushStep(t) => DoManyPush(s, s', t)
    case ManySendStep(t) => DoManySend(s, s', t)
    case ManyLocalStep(t) => DoManyLocal(s, s', t)
    case ManyWaitedStep(t, c) => DoManyWaited(s, s', t, c)
    case ManyReturnStep(t) => DoManyReturn(s, s', t)
    case EnterStep(c, byIpi) => DoEnter(s, s', c, byIpi)
    case DetachStep(c) => DoDetach(s, s', c)
    case EventStep(c) => DoEvent(s, s', c)
    case LeaveStep(c) => DoLeave(s, s', c)
  }
}
