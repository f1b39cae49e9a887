/** In which order the functions queued to a CPU run. */
module SmpOrder {
  import opened SmpFlush
  import opened SmpProtocol
  import opened SmpTheorems

  /** A flush runs waiting calls first, then the others and irq_work, then wakeups. */
  function Phase(kind: Kind): nat {
    match kind
    case Sync => 0
    case Async => 1
    case IrqWork => 1
    case Ttwu => 2
  }

  predicate Runs(e: Event, id: CsdId) { !e.Unlocked? && e.id == id }

  ghost predicate RunsAhead(tr: seq<Event>, a: CsdId, b: CsdId) {
    exists p, q :: 0 <= p < q < |tr| && Runs(tr[p], a) && Runs(tr[q], b)
  }

  // Within one flush

  function InPhase(n: nat): Entry -> seq<Event> {
    if n == 0 then SyncEvents else if n == 1 then AsyncEvents else WakeEvents
  }

  function PhaseStart(es: seq<Entry>, n: nat): nat {
    if n == 0 then 0
    else if n == 1 then |Flat(es, SyncEvents)|
    else |Flat(es, SyncEvents)| + |Flat(es, AsyncEvents)|
  }

  /** Where in the trace the function of entry i runs. */
  function RunPlace(es: seq<Entry>, i: nat): nat
    requires i < |es|
  {
    var n := Phase(es[i].kind);
    PhaseStart(es, n) + |Flat(es[..i], InPhase(n))| + if es[i].kind.Async? then 1 else 0
  }

  lemma RunsThere(es: seq<Entry>, i: nat)
    requires i < |es|
    ensures var n, p := Phase(es[i].kind), RunPlace(es, i);
            && p < PhaseStart(es, n) + |Flat(es, InPhase(n))| <= |FlushTrace(es)|
            && Runs(FlushTrace(es)[p], es[i].id)
  {
    var n, k := Phase(es[i].kind), if es[i].kind.Async? then 1 else 0;
    FlatAt(es, InPhase(n), i, k);
    assert FlushTrace(es)[RunPlace(es, i)] == Flat(es, InPhase(n))[RunPlace(es, i) - PhaseStart(es, n)];
  }

  lemma {:induction false} FlatGrows(es: seq<Entry>, f: Entry -> seq<Event>, i: nat, j: nat)
    requires i < j <= |es|
    ensures |Flat(es[..i], f)| + |f(es[i])| <= |Flat(es[..j], f)|
  {
    if i < j - 1 {
      FlatGrows(es, f, i, j - 1);
    }
    assert es[..j][..j - 1] == es[..j - 1];
  }

  /** Of two entries, the one of the earlier phase runs first, and within a phase the older. */
  lemma FlushRuns(es: seq<Entry>, i: nat, j: nat)
    requires i < |es| && j < |es|
    requires Phase(es[i].kind) < Phase(es[j].kind) || (Phase(es[i].kind) == Phase(es[j].kind) && i < j)
    ensures RunsAhead(FlushTrace(es), es[i].id, es[j].id)
  {
    var n := Phase(es[i].kind);
    RunsThere(es, i);
    RunsThere(es, j);
    if n == Phase(es[j].kind) {
      FlatGrows(es, InPhase(n), i, j);
    }
    assert RunPlace(es, i) < RunPlace(es, j);
  }

  // Over a run

  /** At most one record has been put in front of the queue. */
  predicate Grown(q: seq<CsdId>, q': seq<CsdId>) { q' == q || (q' != [] && q'[1..] == q) }

  lemma QueueGrows(s: State, s': State, step: Step, c: CpuId)
    requires NextStep(s, s', step) && c in s.cpus && step != DetachStep(c)
    ensures c in s'.cpus && Grown(s.cpus[c].queue, s'.cpus[c].queue)
  {
    match step
    case ExecStep(t) => ExecGrows(s, s', t, c);
    case ManyPushStep(t) => ManyPushGrows(s, s', t, c);
    case EventStep(d) => EventGrows(s, s', d, c);
    case _ =>
  }

  lemma ExecGrows(s: State, s': State, t: Tid, c: CpuId)
    requires DoExec(s, s', t) && c in s.cpus
    ensures c in s'.cpus && Grown(s.cpus[c].queue, s'.cpus[c].queue)
  {
  }

  lemma ManyPushGrows(s: State, s': State, t: Tid, c: CpuId)
    requires DoManyPush(s, s', t) && c in s.cpus
    ensures c in s'.cpus && Grown(s.cpus[c].queue, s'.cpus[c].queue)
  {
  }

  lemma EventGrows(s: State, s': State, d: CpuId, c: CpuId)
    requires DoEvent(s, s', d) && c in s.cpus
    ensures c in s'.cpus && s'.cpus[c].queue == s.cpus[c].queue
  {
  }

  /** Step k puts record `id` into the queue of CPU c. */
  ghost predicate Queues(run: Run, k: nat, c: CpuId, id: CsdId) {
    && IsRun(run) && k < |run.steps| && c in run.states[k].cpus && c in run.states[k + 1].cpus
    && id !in run.states[k].cpus[c].queue && id in run.states[k + 1].cpus[c].queue
  }

  /** Record a has been queued before record b. */
  ghost predicate Older(q: seq<CsdId>, a: CsdId, b: CsdId) {
    exists x, y :: 0 <= x < y < |q| && q[x] == b && q[y] == a
  }

  lemma OlderGrows(q: seq<CsdId>, q': seq<CsdId>, a: CsdId, b: CsdId)
    requires Grown(q, q') && Older(q, a, b)
    ensures Older(q', a, b)
  {
    var x, y :| 0 <= x < y < |q| && q[x] == b && q[y] == a;
    if q' != q {
      assert q'[x + 1] == q'[1..][x] && q'[y + 1] == q'[1..][y];
    }
  }

  lemma NewestFirst(q: seq<CsdId>, q': seq<CsdId>, a: CsdId, b: CsdId)
    requires Grown(q, q') && a in q && b !in q && b in q'
    ensures Older(q', a, b)
  {
    var y :| 0 <= y < |q| && q[y] == a;
    assert q' == [q'[0]] + q;
    assert q'[0] == b && q'[y + 1] == a;
  }

  /** CPU c does not take its queue between states i and j. */
  ghost predicate Untaken(run: Run, i: nat, j: nat, c: CpuId)
    requires j <= |run.steps|
  {
    forall l :: i <= l < j ==> run.steps[l] != DetachStep(c)
  }

  lemma {:induction false} StaysQueued(run: Run, i: nat, j: nat, c: CpuId, a: CsdId)
    requires IsRun(run) && i <= j < |run.states| && c in run.states[i].cpus && a in run.states[i].cpus[c].queue && Untaken(run, i, j, c)
    ensures c in run.states[j].cpus && a in run.states[j].cpus[c].queue
  {
    if i < j {
      StaysQueued(run, i, j - 1, c, a);
      assert StepAt(run, j - 1);
      QueueGrows(run.states[j - 1], run.states[j], run.steps[j - 1], c);
      var q, q' := run.states[j - 1].cpus[c].queue, run.states[j].cpus[c].queue;
      assert q' != q ==> q' == [q'[0]] + q;
    }
  }

  lemma {:induction false} StaysOlder(run: Run, i: nat, j: nat, c: CpuId, a: CsdId, b: CsdId)
    requires IsRun(run) && i <= j < |run.states| && c in run.states[i].cpus && Older(run.states[i].cpus[c].queue, a, b) && Untaken(run, i, j, c)
    ensures c in run.states[j].cpus && Older(run.states[j].cpus[c].queue, a, b)
  {
    if i < j {
      StaysOlder(run, i, j - 1, c, a, b);
      assert StepAt(run, j - 1);
      QueueGrows(run.states[j - 1], run.states[j], run.steps[j - 1], c);
      OlderGrows(run.states[j - 1].cpus[c].queue, run.states[j].cpus[c].queue, a, b);
    }
  }

  /** Two records queued one after the other and taken by the same flush run in that order, unless the kind
      of the second puts it into an earlier phase. */
  lemma FirstQueuedFirst(run: Run, i: nat, j: nat, m: nat, c: CpuId, a: CsdId, b: CsdId)
    requires i < j < m < |run.steps| && Queues(run, i, c, a) && Queues(run, j, c, b) && Untaken(run, i, m, c)
    requires run.steps[m] == DetachStep(c)
    ensures var s, s' := run.states[m], run.states[m + 1];
            && a in s.csds && b in s.csds && c in s'.cpus
            && if Phase(s.csds[b].kind) < Phase(s.csds[a].kind)
               then RunsAhead(s'.cpus[c].Plan(), b, a)
               else RunsAhead(s'.cpus[c].Plan(), a, b)
  {
    StaysQueued(run, i + 1, j, c, a);
    assert StepAt(run, j) && StepAt(run, m);
    QueueGrows(run.states[j], run.states[j + 1], run.steps[j], c);
    NewestFirst(run.states[j].cpus[c].queue, run.states[j + 1].cpus[c].queue, a, b);
    StaysOlder(run, j + 1, m, c, a, b);
    DetachRuns(run.states[m], run.states[m + 1], c, a, b);
  }

  lemma DetachRuns(s: State, s': State, c: CpuId, a: CsdId, b: CsdId)
    requires DoDetach(s, s', c) && Older(s.cpus[c].queue, a, b)
    ensures a in s.csds && b in s.csds && c in s'.cpus
    ensures var tr := s'.cpus[c].Plan();
            if Phase(s.csds[b].kind) < Phase(s.csds[a].kind) then RunsAhead(tr, b, a) else RunsAhead(tr, a, b)
  {
    var q := s.cpus[c].queue;
    var x, y :| 0 <= x < y < |q| && q[x] == b && q[y] == a;
    var newest := Entries(q, s.csds);
    var es, i, j := Reverse(newest), |q| - 1 - y, |q| - 1 - x;
    assert es[i] == newest[y] && es[j] == newest[x];
    if Phase(s.csds[b].kind) < Phase(s.csds[a].kind) {
      FlushRuns(es, j, i);
    } else {
      FlushRuns(es, i, j);
    }
  }
}
