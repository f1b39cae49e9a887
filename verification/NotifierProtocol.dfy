/** The collision-retry protocol as a transition system.

    Invalidations, readers, inserts and removes interleave freely; a step is one locked section,
    one user-locked section of a callback or of a retry, or one page-table access.  On top of the
    notifier state the system records the primary page table (`pte`), the shadow entries every
    client has established, and the entries a reader has collected but not yet committed. */
module NotifierProtocol {
  import opened NotifierState

  type ThreadId = nat

  /** Progress inside a callback: before, or after, the section under the user lock. */
  datatype Stage = Entered | Locked(twoPass: bool)

  /** An invalidation, from `invalidate_range_start` to `invalidate_range_end`. */
  datatype Writer =
    | Quiet
      // the callback of `node` is about to run or running
    | Walking(range: Range, blockable: bool, curSeq: nat, node: SubId, stage: Stage,
              visited: set<SubId>, finishes: seq<SubId>)
      // the finish pass
    | Finishing(range: Range, curSeq: nat, failed: bool, visited: set<SubId>, finishes: seq<SubId>)
      // start has returned 0: page-table entries in the range may change
    | Window(range: Range, curSeq: nat, matched: bool)

  datatype Reader =
    | Resting
    | Sampled(sub: SubId, snapSeq: int, colliding: bool)      // inside read_begin, after the lock
    | Reading(sub: SubId, snapSeq: int, snap: map<int, int>)  // read_begin has returned snapSeq

  datatype Phase = Live | Removing(waitSeq: nat)

  /** The owner of a subscription and the shadow entries it uses. */
  datatype Client = Client(phase: Phase, shadow: map<int, int>)

  datatype State = State(
    n: Subscriptions,
    writers: map<ThreadId, Writer>,
    readers: map<ThreadId, Reader>,
    clients: map<SubId, Client>,
    pte: map<int, int>)
  {
    predicate IsLive(x: SubId) { x in clients && clients[x].phase.Live? && x in n.subs }
    predicate Reads(r: ThreadId) { r in readers && readers[r].Reading? }
    predicate InWindow(w: ThreadId) { w in writers && writers[w].Window? }
    predicate Busy(w: ThreadId) { w in writers && !writers[w].Quiet? }
    function Entry(a: int): int { if a in pte then pte[a] else 0 }
  }

  function ActiveWriters(s: State): set<ThreadId> {
    set w | w in s.writers && !s.writers[w].Quiet?
  }

  /** Shadow entries left once those inside `r` are torn down. */
  function DropRange(m: map<int, int>, r: Range): map<int, int> {
    map a | a in m && !r.Contains(a) :: m[a]
  }

  function TearDown(s: State, x: SubId, r: Range): map<SubId, Client> {
    if x in s.clients
    then s.clients[x := s.clients[x].(shadow := DropRange(s.clients[x].shadow, r))]
    else s.clients
  }

  /** Nodes `interval_tree_iter_next` may still return to a walk. */
  function Unvisited(n: Subscriptions, r: Range, visited: set<SubId>): set<SubId>
    requires n.WellFormed()
  {
    set x | x in n.itree && n.subs[x].Overlaps(r) && x !in visited
  }

  predicate Init(s: State) {
    && s.n == Registered
    && (forall w :: w in s.writers ==> s.writers[w].Quiet?)
    && (forall r :: r in s.readers ==> s.readers[r].Resting?)
    && s.clients == map[]
  }

  // Invalidation side

  predicate DoInvStart(s: State, t: State, w: ThreadId, range: Range, blockable: bool, node: SubId) {
    && s.n.WellFormed() && w in s.writers && s.writers[w].Quiet? && range.start < range.end
    && var n := InvStart(s.n, range);
    && (s.n.Matches(range) ==> node in s.n.itree && s.n.subs[node].Overlaps(range))
    && t == s.(n := n, writers := s.writers[w :=
                 if s.n.Matches(range)
                 then Walking(range, blockable, n.epoch, node, Entered, {}, [])
                 else Window(range, n.epoch, false)])
  }

  /** The user-locked section of `invalidate` or `invalidate_start`. */
  predicate DoUserLock(s: State, t: State, w: ThreadId, twoPass: bool) {
    && w in s.writers && s.writers[w].Walking? && s.writers[w].stage.Entered?
    && var W := s.writers[w];
    && W.node in s.n.subs
    && t == s.(n := SetSeq(s.n, W.node, W.curSeq),
               writers := s.writers[w := W.(stage := Locked(twoPass))],
               clients := if twoPass then s.clients else TearDown(s, W.node, W.range))
  }

  /** The callback returns and the loop of `mn_itree_invalidate` moves on.  Success requires the
      user-locked section to have run; failure is only possible on a non-blockable range. */
  predicate DoCallbackReturn(s: State, t: State, w: ThreadId, ok: bool, next: SubId) {
    && s.n.WellFormed() && w in s.writers && s.writers[w].Walking?
    && var W := s.writers[w];
    && (if ok then W.stage.Locked? else !W.blockable)
    && var visited := W.visited + {W.node};
    && var finishes := if ok && W.stage.twoPass then W.finishes + [W.node] else W.finishes;
    && var rest := Unvisited(s.n, W.range, visited);
    && (ok && rest != {} ==> next in rest)
    && t == s.(writers := s.writers[w :=
                 if !ok then Finishing(W.range, W.curSeq, true, visited, finishes)
                 else if rest == {} then Finishing(W.range, W.curSeq, false, visited, finishes)
                 else Walking(W.range, W.blockable, W.curSeq, next, Entered, visited, finishes)])
  }

  /** One `invalidate_finish`, oldest first. */
  predicate DoFinish(s: State, t: State, w: ThreadId) {
    && w in s.writers && s.writers[w].Finishing? && s.writers[w].finishes != []
    && var W := s.writers[w];
    && t == s.(writers := s.writers[w := W.(finishes := W.finishes[1..])],
               clients := TearDown(s, W.finishes[0], W.range))
  }

  /** `mn_itree_invalidate` returns: 0 opens the window, -EAGAIN runs inv_end at once. */
  predicate DoStartReturn(s: State, t: State, w: ThreadId) {
    && s.n.WellFormed() && w in s.writers && s.writers[w].Finishing? && s.writers[w].finishes == []
    && var W := s.writers[w];
    && if W.failed
       then s.n.active > 0 && t == s.(n := InvEnd(s.n), writers := s.writers[w := Quiet])
       else t == s.(writers := s.writers[w := Window(W.range, W.curSeq, true)])
  }

  predicate DoPteChange(s: State, t: State, w: ThreadId, a: int, v: int) {
    && w in s.writers && s.writers[w].Window? && s.writers[w].range.Contains(a)
    && t == s.(pte := s.pte[a := v])
  }

  predicate DoInvEnd(s: State, t: State, w: ThreadId) {
    && s.n.WellFormed() && w in s.writers && s.writers[w].Window? && s.n.active > 0
    && t == s.(n := InvEnd(s.n), writers := s.writers[w := Quiet])
  }

  // Subscription side

  /** A subscription is inserted once its previous life, if any, is over. */
  predicate DoInsert(s: State, t: State, x: SubId, start: nat, length: nat) {
    && x !in s.clients
    && (forall r :: r in s.readers && !s.readers[r].Resting? ==> s.readers[r].sub != x)
    && t == if Insertable(start, length)
            then s.(n := Insert(s.n, x, start, length), clients := s.clients[x := Client(Live, map[])])
            else s
  }

  predicate DoRemove(s: State, t: State, x: SubId) {
    && s.IsLive(x)
    && var q := RemoveWait(s.n, x);
    && t == s.(n := Remove(s.n, x),
               clients := if q == 0 then s.clients - {x}
                          else s.clients[x := s.clients[x].(phase := Removing(q))])
  }

  predicate DoRemoveReturn(s: State, t: State, x: SubId) {
    && x in s.clients && s.clients[x].phase.Removing? && s.n.epoch != s.clients[x].phase.waitSeq
    && t == s.(clients := s.clients - {x})
  }

  // Read side

  predicate DoReadSample(s: State, t: State, r: ThreadId, x: SubId) {
    && r in s.readers && s.readers[r].Resting? && s.IsLive(x)
    && var q := s.n.subs[x].stamp;
    && t == s.(readers := s.readers[r := Sampled(x, q, q == s.n.epoch)])
  }

  predicate DoReadReturn(s: State, t: State, r: ThreadId) {
    && r in s.readers && s.readers[r].Sampled?
    && var R := s.readers[r];
    && (R.colliding ==> s.n.epoch != R.snapSeq)
    && t == s.(readers := s.readers[r := Reading(R.sub, R.snapSeq, map[])])
  }

  predicate DoReadPte(s: State, t: State, r: ThreadId, a: int) {
    && s.Reads(r)
    && var R := s.readers[r];
    && R.sub in s.n.subs && s.n.subs[R.sub].Contains(a)
    && t == s.(readers := s.readers[r := R.(snap := R.snap[a := s.Entry(a)])])
  }

  /** `mmu_interval_read_retry` under the user lock: on false the collected entries are used. */
  predicate DoReadRetry(s: State, t: State, r: ThreadId) {
    && s.Reads(r)
    && var R := s.readers[r];
    && s.IsLive(R.sub)
    && t == s.(readers := s.readers[r := Resting],
               clients := if s.n.subs[R.sub].stamp != R.snapSeq then s.clients
                          else s.clients[R.sub := s.clients[R.sub].(shadow := s.clients[R.sub].shadow + R.snap)])
  }

  datatype Step =
    | InvStartStep(w: ThreadId, range: Range, blockable: bool, node: SubId)
    | UserLockStep(w: ThreadId, twoPass: bool)
    | CallbackReturnStep(w: ThreadId, ok: bool, next: SubId)
    | FinishStep(w: ThreadId)
    | StartReturnStep(w: ThreadId)
    | PteChangeStep(w: ThreadId, a: int, v: int)
    | InvEndStep(w: ThreadId)
    | InsertStep(x: SubId, start: nat, length: nat)
    | RemoveStep(x: SubId)
    | RemoveReturnStep(x: SubId)
    | ReadSampleStep(r: ThreadId, x: SubId)
    | ReadReturnStep(r: ThreadId)
    | ReadPteStep(r: ThreadId, a: int)
    | ReadRetryStep(r: ThreadId)

  predicate NextStep(s: State, t: State, step: Step) {
    match step
    case InvStartStep(w, range, blockable, node) => DoInvStart(s, t, w, range, blockable, node)
    case UserLockStep(w, twoPass) => DoUserLock(s, t, w, twoPass)
    case CallbackReturnStep(w, ok, next) => DoCallbackReturn(s, t, w, ok, next)
    case FinishStep(w) => DoFinish(s, t, w)
    case StartReturnStep(w) => DoStartReturn(s, t, w)
    case PteChangeStep(w, a, v) => DoPteChange(s, t, w, a, v)
    case InvEndStep(w) => DoInvEnd(s, t, w)
    case InsertStep(x, start, length) => DoInsert(s, t, x, start, length)
    case RemoveStep(x) => DoRemove(s, t, x)
    case RemoveReturnStep(x) => DoRemoveReturn(s, t, x)
    case ReadSampleStep(r, x) => DoReadSample(s, t, r, x)
    case ReadReturnStep(r) => DoReadReturn(s, t, r)
    case ReadPteStep(r, a) => DoReadPte(s, t, r, a)
    case ReadRetryStep(r) => DoReadRetry(s, t, r)
  }

  /** A run: consecutive states, the i-th step leading from the i-th state to the next. */
  datatype Run = Run(states: seq<State>, steps: seq<Step>)

  ghost predicate StepAt(run: Run, i: nat)
    requires |run.states| == |run.steps| + 1 && i < |run.steps|
  {
    NextStep(run.states[i], run.states[i + 1], run.steps[i])
  }

  ghost predicate IsRun(run: Run) {
    && |run.states| == |run.steps| + 1
    && Init(run.states[0])
    && forall i {:trigger StepAt(run, i)} :: 0 <= i < |run.steps| ==> StepAt(run, i)
  }
}
