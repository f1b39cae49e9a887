/** The inductive invariant of cross-CPU calls, and the facts about flush traces it needs. */
module SmpInvariant {
  import opened SmpFlush
  import opened SmpProtocol

  // Traces as multisets

  /** The function an event completes. */
  function Job(e: Event): multiset<int> {
    match e
    case Ran(_, n) => multiset{n}
    case Unlocked(_) => multiset{}
    case RanIrqWork(_, n) => multiset{n}
    case Woke(_, n) => multiset{n}
  }

  /** The record an event releases. */
  function Freed(e: Event): multiset<CsdId> {
    match e
    case Ran(_, _) => multiset{}
    case Unlocked(id) => multiset{id}
    case RanIrqWork(id, _) => multiset{id}
    case Woke(id, _) => multiset{id}
  }

  function Jobs(tr: seq<Event>): multiset<int> {
    if tr == [] then multiset{} else Job(tr[0]) + Jobs(tr[1..])
  }

  function Frees(tr: seq<Event>): multiset<CsdId> {
    if tr == [] then multiset{} else Freed(tr[0]) + Frees(tr[1..])
  }

  lemma {:induction false} JobsConcat(a: seq<Event>, b: seq<Event>)
    ensures Jobs(a + b) == Jobs(a) + Jobs(b)
  {
    if a == [] {
      assert a + b == b;
    } else {
      assert (a + b)[1..] == a[1..] + b;
      JobsConcat(a[1..], b);
    }
  }

  lemma {:induction false} FreesConcat(a: seq<Event>, b: seq<Event>)
    ensures Frees(a + b) == Frees(a) + Frees(b)
  {
    if a == [] {
      assert a + b == b;
    } else {
      assert (a + b)[1..] == a[1..] + b;
      FreesConcat(a[1..], b);
    }
  }

  function Funcs(es: seq<Entry>): seq<int> {
    seq(|es|, i requires 0 <= i < |es| => es[i].func)
  }

  lemma EntryTotals(e: Entry)
    ensures Jobs(SyncEvents(e)) + Jobs(AsyncEvents(e)) + Jobs(WakeEvents(e)) == multiset{e.func}
    ensures Frees(SyncEvents(e)) + Frees(AsyncEvents(e)) + Frees(WakeEvents(e)) == multiset{e.id}
  {
    PairTotals(e);
    match e.kind
    case Sync =>
    case Async =>
    case IrqWork => assert [RanIrqWork(e.id, e.func)][1..] == [];
    case Ttwu => assert [Woke(e.id, e.func)][1..] == [];
  }

  lemma PairTotals(e: Entry)
    ensures Jobs([Ran(e.id, e.func), Unlocked(e.id)]) == multiset{e.func} == Jobs([Unlocked(e.id), Ran(e.id, e.func)])
    ensures Frees([Ran(e.id, e.func), Unlocked(e.id)]) == multiset{e.id} == Frees([Unlocked(e.id), Ran(e.id, e.func)])
  {
    JobsConcat([Ran(e.id, e.func)], [Unlocked(e.id)]);
    JobsConcat([Unlocked(e.id)], [Ran(e.id, e.func)]);
    FreesConcat([Ran(e.id, e.func)], [Unlocked(e.id)]);
    FreesConcat([Unlocked(e.id)], [Ran(e.id, e.func)]);
    assert [Ran(e.id, e.func)] + [Unlocked(e.id)] == [Ran(e.id, e.func), Unlocked(e.id)];
    assert [Unlocked(e.id)] + [Ran(e.id, e.func)] == [Unlocked(e.id), Ran(e.id, e.func)];
  }

  lemma FlatTotals(es: seq<Entry>, f: Entry -> seq<Event>)
    requires es != []
    ensures var pre, e := es[..|es| - 1], es[|es| - 1];
            && Jobs(Flat(es, f)) == Jobs(Flat(pre, f)) + Jobs(f(e))
            && Frees(Flat(es, f)) == Frees(Flat(pre, f)) + Frees(f(e))
  {
    var pre, e := es[..|es| - 1], es[|es| - 1];
    JobsConcat(Flat(pre, f), f(e));
    FreesConcat(Flat(pre, f), f(e));
  }

  function AllJobs(es: seq<Entry>): multiset<int> {
    Jobs(Flat(es, SyncEvents)) + Jobs(Flat(es, AsyncEvents)) + Jobs(Flat(es, WakeEvents))
  }

  function AllFrees(es: seq<Entry>): multiset<CsdId> {
    Frees(Flat(es, SyncEvents)) + Frees(Flat(es, AsyncEvents)) + Frees(Flat(es, WakeEvents))
  }

  lemma Regroup<T>(a: multiset<T>, b: multiset<T>, c: multiset<T>, x: multiset<T>, y: multiset<T>, z: multiset<T>)
    ensures (a + x) + (b + y) + (c + z) == (a + b + c) + (x + y + z)
  {
  }

  lemma {:induction false} AllTotals(es: seq<Entry>)
    ensures AllJobs(es) == multiset(Funcs(es)) && AllFrees(es) == multiset(Ids(es))
  {
    if es == [] {
      assert Funcs(es) == [] && Ids(es) == [];
    } else {
      var pre, e := es[..|es| - 1], es[|es| - 1];
      AllTotals(pre);
      AllStep(es);
      SeqStep(es);
    }
  }

  lemma SeqStep(es: seq<Entry>)
    requires es != []
    ensures var pre, e := es[..|es| - 1], es[|es| - 1];
            && multiset(Funcs(es)) == multiset(Funcs(pre)) + multiset{e.func}
            && multiset(Ids(es)) == multiset(Ids(pre)) + multiset{e.id}
  {
    var pre, e := es[..|es| - 1], es[|es| - 1];
    assert Funcs(es) == Funcs(pre) + [e.func] && Ids(es) == Ids(pre) + [e.id];
  }

  lemma AllStep(es: seq<Entry>)
    requires es != []
    ensures var pre, e := es[..|es| - 1], es[|es| - 1];
            AllJobs(es) == AllJobs(pre) + multiset{e.func} && AllFrees(es) == AllFrees(pre) + multiset{e.id}
  {
    var pre, e := es[..|es| - 1], es[|es| - 1];
    FlatTotals(es, SyncEvents);
    FlatTotals(es, AsyncEvents);
    FlatTotals(es, WakeEvents);
    EntryTotals(e);
    Regroup(Jobs(Flat(pre, SyncEvents)), Jobs(Flat(pre, AsyncEvents)), Jobs(Flat(pre, WakeEvents)),
            Jobs(SyncEvents(e)), Jobs(AsyncEvents(e)), Jobs(WakeEvents(e)));
    Regroup(Frees(Flat(pre, SyncEvents)), Frees(Flat(pre, AsyncEvents)), Frees(Flat(pre, WakeEvents)),
            Frees(SyncEvents(e)), Frees(AsyncEvents(e)), Frees(WakeEvents(e)));
  }

  /** A flush completes every queued function and releases every queued record, once each. */
  lemma TraceTotals(es: seq<Entry>)
    ensures Jobs(FlushTrace(es)) == multiset(Funcs(es)) && Frees(FlushTrace(es)) == multiset(Ids(es))
  {
    var a, b, c := Flat(es, SyncEvents), Flat(es, AsyncEvents), Flat(es, WakeEvents);
    AllTotals(es);
    JobsConcat(a, b);
    JobsConcat(a + b, c);
    FreesConcat(a, b);
    FreesConcat(a + b, c);
  }

  lemma {:induction false} ReverseMultiset<T>(q: seq<T>)
    ensures multiset(Reverse(q)) == multiset(q)
  {
    if q != [] {
      ReverseMultiset(q[1..]);
      assert q == [q[0]] + q[1..];
    }
  }

  // Order within a trace

  predicate WaitsFor(calls: map<int, Call>, n: int) { n in calls && calls[n].wait }

  /** The run of a waiting call is followed at once by the release of its record. */
  ghost predicate Paired(tr: seq<Event>, calls: map<int, Call>) {
    forall p :: 0 <= p < |tr| && tr[p].Ran? && WaitsFor(calls, tr[p].func) ==> FreedNext(tr, p)
  }

  predicate FreedNext(tr: seq<Event>, p: nat)
    requires p < |tr|
  {
    p + 1 < |tr| && tr[p + 1] == Unlocked(tr[p].id)
  }

  lemma PairedConcat(a: seq<Event>, b: seq<Event>, calls: map<int, Call>)
    requires Paired(a, calls) && Paired(b, calls)
    ensures Paired(a + b, calls)
  {
    var r := a + b;
    forall p | 0 <= p < |r| && r[p].Ran? && WaitsFor(calls, r[p].func) ensures FreedNext(r, p) {
      if p < |a| {
        assert FreedNext(a, p);
      } else {
        assert FreedNext(b, p - |a|);
      }
    }
  }

  /** What may stand in a trace that CPU c works through. */
  predicate EventOk(e: Event, c: CpuId, ids: set<CsdId>, calls: map<int, Call>) {
    && e.id in ids && (!e.Unlocked? ==> e.func in calls && calls[e.func].tid.Cpu() != c)
    && (e.Ran? && WaitsFor(calls, e.func) ==> e.id == CsdFor(calls[e.func], c))
    && (e.RanIrqWork? || e.Woke? ==> !WaitsFor(calls, e.func))
  }

  ghost predicate TraceOk(tr: seq<Event>, c: CpuId, ids: set<CsdId>, calls: map<int, Call>) {
    Paired(tr, calls) && forall p :: 0 <= p < |tr| ==> EventOk(tr[p], c, ids, calls)
  }

  /** What may stand in the queue of CPU c. */
  predicate EntryOk(e: Entry, c: CpuId, ids: set<CsdId>, calls: map<int, Call>) {
    && e.id in ids && e.func in calls && calls[e.func].tid.Cpu() != c
    && Owns(calls[e.func].tid, e.id) && (e.id.Cfd? ==> e.id.target == c)
    && (calls[e.func].wait ==> e.kind.Sync? && e.id == CsdFor(calls[e.func], c))
  }

  lemma TraceOkConcat(a: seq<Event>, b: seq<Event>, c: CpuId, ids: set<CsdId>, calls: map<int, Call>)
    requires TraceOk(a, c, ids, calls) && TraceOk(b, c, ids, calls)
    ensures TraceOk(a + b, c, ids, calls)
  {
    PairedConcat(a, b, calls);
  }

  lemma EntryTraceOk(e: Entry, c: CpuId, ids: set<CsdId>, calls: map<int, Call>)
    requires EntryOk(e, c, ids, calls)
    ensures TraceOk(SyncEvents(e), c, ids, calls)
    ensures TraceOk(AsyncEvents(e), c, ids, calls)
    ensures TraceOk(WakeEvents(e), c, ids, calls)
  {
    if e.kind.Sync? {
      assert FreedNext(SyncEvents(e), 0);
    }
  }

  lemma {:induction false} FlatTraceOk(es: seq<Entry>, f: Entry -> seq<Event>, c: CpuId, ids: set<CsdId>, calls: map<int, Call>)
    requires forall i :: 0 <= i < |es| ==> TraceOk(f(es[i]), c, ids, calls)
    ensures TraceOk(Flat(es, f), c, ids, calls)
  {
    if es != [] {
      FlatTraceOk(es[..|es| - 1], f, c, ids, calls);
      TraceOkConcat(Flat(es[..|es| - 1], f), f(es[|es| - 1]), c, ids, calls);
    }
  }

  lemma FlushTraceOk(es: seq<Entry>, c: CpuId, ids: set<CsdId>, calls: map<int, Call>)
    requires forall i :: 0 <= i < |es| ==> EntryOk(es[i], c, ids, calls)
    ensures TraceOk(FlushTrace(es), c, ids, calls)
  {
    forall i | 0 <= i < |es|
      ensures TraceOk(SyncEvents(es[i]), c, ids, calls) && TraceOk(AsyncEvents(es[i]), c, ids, calls)
              && TraceOk(WakeEvents(es[i]), c, ids, calls)
    {
      EntryTraceOk(es[i], c, ids, calls);
    }
    FlatTraceOk(es, SyncEvents, c, ids, calls);
    FlatTraceOk(es, AsyncEvents, c, ids, calls);
    FlatTraceOk(es, WakeEvents, c, ids, calls);
    TraceOkConcat(Flat(es, SyncEvents), Flat(es, AsyncEvents), c, ids, calls);
    TraceOkConcat(Flat(es, SyncEvents) + Flat(es, AsyncEvents), Flat(es, WakeEvents), c, ids, calls);
  }

  lemma TraceOkTail(tr: seq<Event>, c: CpuId, ids: set<CsdId>, calls: map<int, Call>)
    requires tr != [] && TraceOk(tr, c, ids, calls)
    ensures TraceOk(tr[1..], c, ids, calls)
  {
    var r := tr[1..];
    forall p | 0 <= p < |r| && r[p].Ran? && WaitsFor(calls, r[p].func) ensures FreedNext(r, p) {
      assert FreedNext(tr, p + 1);
    }
  }

  // Invariant

  ghost predicate QueueIn(q: seq<CsdId>, csds: map<CsdId, Rec>) {
    forall i :: 0 <= i < |q| ==> q[i] in csds
  }

  /** One record: a record away from home is locked; an unlocked one has no type bits. */
  ghost predicate RecOk(r: Rec, cpus: set<CpuId>) {
    && (!r.place.Home? ==> r.locked && r.place.cpu in cpus)
    && (!r.locked ==> r.kind.Async?)
  }

  /** A record is in a queue, or due for release in a flush, exactly when its place says so,
      and then exactly once. */
  ghost predicate PlaceOk(c: CpuId, C: CpuState, id: CsdId, place: Place) {
    && multiset(C.queue)[id] == (if place == Queued(c) then 1 else 0)
    && Frees(C.Plan())[id] == (if place == Detached(c) then 1 else 0)
  }

  /** One CPU: what was issued to it is done, queued or in its trace. */
  ghost predicate CpuOk(c: CpuId, C: CpuState, csds: map<CsdId, Rec>, calls: map<int, Call>) {
    && QueueIn(C.queue, csds)
    && (forall i :: 0 <= i < |C.queue| ==> EntryOk(Entries(C.queue, csds)[i], c, csds.Keys, calls))
    && TraceOk(C.Plan(), c, csds.Keys, calls)
    && C.issued == C.done + multiset(Funcs(Entries(C.queue, csds))) + Jobs(C.Plan())
    && (forall n :: C.issued[n] <= 1)
    && (forall n :: n !in calls ==> C.issued[n] == 0)
  }

  /** The record a sender has locked and not yet queued. */
  ghost predicate Holds1(csds: map<CsdId, Rec>, id: CsdId, n: int, wait: bool) {
    && id in csds && csds[id].locked && csds[id].place.Home? && csds[id].func == n
    && (wait ==> csds[id].kind.Sync?)
  }

  predicate Owns(t: Tid, id: CsdId) {
    match id
    case Stack(cpu) => t == Task(cpu)
    case PerCpu(cpu) => t == Task(cpu)
    case Cfd(cpu, _) => t == Task(cpu)
    case Embedded(k) => t.Irq? && t.n == k
  }

  predicate Unlocked1(csds: map<CsdId, Rec>, id: CsdId) { id in csds ==> !csds[id].locked }

  ghost predicate ManyOk(t: Tid, T: Thread, s: State)
    requires T.Many?
  {
    var cpu := t.Cpu();
    && t.Task?
    && (match T.stage
        case Looping => true
        case Holding(c) => c in T.todo && c in T.want.accepts && Holds1(s.csds, Cfd(cpu, c), T.call, T.wait)
        case Sent => T.todo == {}
        case Waits(left) => T.todo == {} && left <= T.picked - {cpu}
                            && (T.wait ==> forall c :: c in T.picked && c != cpu && c !in left ==> Unlocked1(s.csds, Cfd(cpu, c))))
    && T.todo + T.skipped + (T.picked - {cpu}) == T.mask * s.online - {cpu}
    && (cpu in T.picked <==> T.stage.Waits? && T.want.Here(cpu, T.mask))
    && T.skipped !! T.want.accepts && T.picked <= T.want.accepts
    && T.todo !! T.skipped !! T.picked && T.picked <= T.mask
    && T.owed <= T.picked && T.nr == |T.owed| && (T.nr == 1 ==> T.last in T.owed)
  }

  ghost predicate ThreadOk(t: Tid, T: Thread, s: State) {
    match T
    case Idle => true
    case Ready(n, target, id, wait) =>
      && Mine(s, t, n, wait, false, {target}, PLAIN) && Owns(t, id) && !id.Cfd? && (wait <==> id == Stack(t.Cpu()))
      && Holds1(s.csds, id, n, wait)
    case RunsHere(n, wait) => Mine(s, t, n, wait, false, {t.Cpu()}, PLAIN) && (wait ==> t.Task?)
    case Pushed(n, target, id, wait, owes) =>
      && Mine(s, t, n, wait, false, {target}, PLAIN) && Owns(t, id) && id in s.csds
      && (wait <==> id == Stack(t.Cpu())) && target != t.Cpu() && target in s.online
    case Spins(n, target, id) =>
      && Mine(s, t, n, true, false, {target}, PLAIN) && id == Stack(t.Cpu()) && id in s.csds
      && t.Task? && target != t.Cpu() && target in s.online
    case Many(n, wait, want, mask, _, _, _, _, _, _, _) => Mine(s, t, n, wait, true, mask, want) && ManyOk(t, T, s)
    case Returned(n, wait, err, picked, skipped) =>
      && n in s.calls && s.calls[n].tid == t && s.calls[n].wait == wait
      && Reached(s.calls[n], s.online, err, picked, skipped)
      && (wait ==> t.Task? && forall c :: c in picked && c != t.Cpu() ==> Unlocked1(s.csds, CsdFor(s.calls[n], c)))
  }

  predicate Mine(s: State, t: Tid, n: int, wait: bool, many: bool, mask: set<CpuId>, want: Want) {
    n in s.calls && s.calls[n] == Call(t, wait, many, mask, want)
  }

  /** The CPUs a finished call was issued to.  A single call reaches its target, or fails exactly
      when that is another CPU and offline.  A many-CPU call reaches every other online CPU of the
      mask that the condition accepts, skips those it rejects, and reaches its own CPU if that is
      wanted, in the mask and accepted. */
  predicate Reached(call: Call, online: set<CpuId>, err: bool, picked: set<CpuId>, skipped: set<CpuId>) {
    var here := call.tid.Cpu();
    if call.many
    then
      && !err && skipped == call.mask * online - {here} - call.want.accepts
      && picked - {here} == call.mask * online * call.want.accepts - {here} && (here in picked <==> call.want.Here(here, call.mask))
    else skipped == {} && (err <==> call.mask !! online + {here}) && picked == if err then {} else call.mask
  }

  /** CPUs the current call has been issued to. */
  function Picked(T: Thread): set<CpuId> {
    match T
    case Pushed(_, target, _, _, _) => {target}
    case Spins(_, target, _) => {target}
    case Many(_, _, _, _, _, _, _, picked, _, _, _) => picked
    case Returned(_, _, _, picked, _) => picked
    case _ => {}
  }

  ghost predicate IssuedOk(T: Thread, c: CpuId, C: CpuState) {
    !T.Idle? ==> C.issued[T.call] == (if c in Picked(T) then 1 else 0)
  }

  /** A stack record is locked only during the call it was made for. */
  ghost predicate StackOk(T: Thread, cpu: CpuId, r: Rec) {
    r.locked ==> (T.Ready? || T.Pushed? || T.Spins?) && T.id == Stack(cpu)
  }

  /** T found queue c empty when it last was, in a call that started before that. */
  predicate Owing(T: Thread, c: CpuId, since: nat) {
    c in Owes(T) && !T.Idle? && T.call < since
  }

  /** A non-empty queue has an interrupt on its way. */
  ghost predicate KickOk(s: State, c: CpuId)
    requires c in s.cpus
  {
    s.cpus[c].queue != [] ==>
      s.cpus[c].ipi || s.cpus[c].flush.Entered?
      || exists t :: t in s.threads && Owing(s.threads[t], c, s.cpus[c].since)
  }

  predicate Gripping(T: Thread) { T.Ready? || (T.Many? && T.stage.Holding?) }

  predicate Grips(t: Tid, T: Thread, id: CsdId) {
    Gripping(T) && id == if T.Ready? then T.id else Cfd(t.Cpu(), T.stage.target)
  }

  /** A locked record at home is in some sender's hands. */
  ghost predicate HeldOk(s: State, id: CsdId)
    requires id in s.csds
  {
    s.csds[id].locked && s.csds[id].place.Home? ==> exists t :: t in s.threads && Grips(t, s.threads[t], id)
  }

  /** A record that sender t left in a queue in an earlier call is older than its present call. */
  predicate OldOk(t: Tid, T: Thread, C: CpuState, id: CsdId, func: int, calls: map<int, Call>) {
    id in C.queue && func in calls && calls[func].tid == t && !T.Idle? && T.call != func ==> C.since <= T.call
  }

  ghost predicate RecInv(s: State) {
    && s.online <= s.cpus.Keys
    && (forall t :: t in s.threads ==> t.Cpu() in s.cpus)
    && (forall cpu, c :: Task(cpu) in s.threads && c in s.online ==> Cfd(cpu, c) in s.csds)
    && (forall id :: id in s.csds ==> RecOk(s.csds[id], s.cpus.Keys))
  }

  ghost predicate PlaceInv(s: State) {
    forall c, id :: c in s.cpus && id in s.csds ==> PlaceOk(c, s.cpus[c], id, s.csds[id].place)
  }

  ghost predicate CpuInv(s: State) {
    forall c :: c in s.cpus ==> CpuOk(c, s.cpus[c], s.csds, s.calls)
  }

  ghost predicate ThreadInv(s: State) {
    forall t :: t in s.threads ==> ThreadOk(t, s.threads[t], s)
  }

  ghost predicate IssuedInv(s: State) {
    forall t, c :: t in s.threads && c in s.cpus ==> IssuedOk(s.threads[t], c, s.cpus[c])
  }

  ghost predicate StackInv(s: State) {
    forall cpu :: Stack(cpu) in s.csds ==>
      Task(cpu) in s.threads && StackOk(s.threads[Task(cpu)], cpu, s.csds[Stack(cpu)])
  }

  ghost predicate KickInv(s: State) {
    forall c :: c in s.cpus ==> KickOk(s, c)
  }

  ghost predicate HeldInv(s: State) {
    forall id :: id in s.csds ==> HeldOk(s, id)
  }

  ghost predicate OldInv(s: State) {
    forall t, c, id :: t in s.threads && c in s.cpus && id in s.csds ==>
      OldOk(t, s.threads[t], s.cpus[c], id, s.csds[id].func, s.calls)
  }

  ghost predicate NumInv(s: State) {
    && (forall n :: n in s.calls ==> 0 <= n < |s.calls|)
    && (forall c :: c in s.cpus ==> s.cpus[c].since <= |s.calls|)
  }

  ghost predicate Inv(s: State) {
    && RecInv(s) && PlaceInv(s) && CpuInv(s) && ThreadInv(s) && IssuedInv(s) && StackInv(s) && KickInv(s)
    && HeldInv(s) && OldInv(s) && NumInv(s)
  }
}
