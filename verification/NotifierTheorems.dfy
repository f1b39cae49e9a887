/** What the collision-retry protocol guarantees in every run. */
module NotifierTheorems {
  import opened NotifierState
  import opened NotifierProtocol
  import opened NotifierInvariant
  import opened NotifierProofs

  lemma {:induction false} RunInvariant(run: Run, i: nat)
    requires IsRun(run) && i < |run.states|
    ensures Inv(run.states[i])
  {
    if i == 0 {
      InitEstablishes(run.states[0]);
    } else {
      RunInvariant(run, i - 1);
      assert StepAt(run, i - 1);
      StepKeeps(run.states[i - 1], run.states[i], run.steps[i - 1]);
    }
  }

  /** Shadow entries never go stale: in every reachable state, each shadow entry of a live
      subscription equals the primary entry, and no open window may change that entry. */
  lemma ShadowCoherence(run: Run, i: nat, x: SubId, a: int)
    requires IsRun(run) && i < |run.states|
    requires run.states[i].IsLive(x) && a in run.states[i].clients[x].shadow
    ensures run.states[i].clients[x].shadow[a] == run.states[i].Entry(a)
    ensures forall w :: run.states[i].InWindow(w) ==> !run.states[i].writers[w].range.Contains(a)
  {
    RunInvariant(run, i);
    var s := run.states[i];
    assert ClientOk(s.n, x, s.clients[x], s.pte);
    forall w | s.InWindow(w) ensures !s.writers[w].range.Contains(a) {
      assert PairOk(s.n.epoch, s.writers[w], x, s.clients[x], s.n.subs[x]);
    }
  }

  /** What a sample taken by `read_begin` tells: one that does not collide finds no overlapping
      invalidation in its window, and one that does collide waits for an invalidation that is open. */
  lemma SampleMeaning(run: Run, i: nat, x: SubId)
    requires IsRun(run) && i < |run.states| && run.states[i].IsLive(x)
    ensures var s := run.states[i];
            var sub := s.n.subs[x];
            if sub.stamp == s.n.epoch then s.n.Invalidating() && exists w :: s.Busy(w)
            else forall w :: s.InWindow(w) ==> !sub.Overlaps(s.writers[w].range)
  {
    RunInvariant(run, i);
    var s := run.states[i];
    assert ClientOk(s.n, x, s.clients[x], s.pte);
    if s.n.subs[x].stamp == s.n.epoch {
      assert ActiveWriters(s) != {};
      var w :| w in ActiveWriters(s);
      assert s.Busy(w);
    } else {
      forall w | s.InWindow(w) ensures !s.n.subs[x].Overlaps(s.writers[w].range) {
        assert PairOk(s.n.epoch, s.writers[w], x, s.clients[x], s.n.subs[x]);
      }
    }
  }

  // Collision-retry soundness

  /** One step cannot lower a stamp or the epoch, nor move the bounds of a live subscription. */
  lemma StepMonotone(s: State, t: State, step: Step, x: SubId)
    requires Inv(s) && NextStep(s, t, step)
    requires s.IsLive(x) && t.IsLive(x)
    ensures s.n.epoch <= t.n.epoch
    ensures s.n.subs[x].stamp <= t.n.subs[x].stamp
    ensures s.n.subs[x].start == t.n.subs[x].start && s.n.subs[x].last == t.n.subs[x].last
  {
    assert ClientOk(s.n, x, s.clients[x], s.pte);
    if step.InvEndStep? || step.StartReturnStep? {
      EndMonotone(s, t, step, x);
    } else if step.UserLockStep? {
      assert WalkOk(s.n, s.writers[step.w]);
    }
  }

  lemma EndMonotone(s: State, t: State, step: Step, x: SubId)
    requires EpochInv(s) && ClientInv(s) && NextStep(s, t, step) && (step.InvEndStep? || step.StartReturnStep?) && x in s.n.subs && x in t.n.subs
    ensures s.n.epoch <= t.n.epoch && s.n.subs[x].stamp == t.n.subs[x].stamp
    ensures s.n.subs[x].start == t.n.subs[x].start && s.n.subs[x].last == t.n.subs[x].last
  {
    if s.n.active > 0 {
      InvEndEffect(s.n);
    }
  }

  /** The subscription is live, in one life, from state i to state j. */
  ghost predicate LiveThrough(run: Run, i: nat, j: nat, x: SubId)
    requires j < |run.states|
  {
    forall k {:trigger run.states[k]} :: i <= k <= j ==>
      x in run.states[k].clients && run.states[k].clients[x].phase.Live? && x in run.states[k].n.subs
  }

  lemma RunStepMonotone(run: Run, k: nat, x: SubId)
    requires IsRun(run) && k < |run.steps|
    requires run.states[k].IsLive(x) && run.states[k + 1].IsLive(x)
    ensures var s, t := run.states[k], run.states[k + 1];
            && s.n.epoch <= t.n.epoch && s.n.subs[x].stamp <= t.n.subs[x].stamp
            && s.n.subs[x].start == t.n.subs[x].start && s.n.subs[x].last == t.n.subs[x].last
  {
    RunInvariant(run, k);
    assert StepAt(run, k);
    StepMonotone(run.states[k], run.states[k + 1], run.steps[k], x);
  }

  lemma {:induction false} RunMonotone(run: Run, i: nat, j: nat, x: SubId)
    requires IsRun(run) && i <= j < |run.states| && LiveThrough(run, i, j, x)
    ensures var s, t := run.states[i], run.states[j];
            && s.n.epoch <= t.n.epoch && s.n.subs[x].stamp <= t.n.subs[x].stamp
            && s.n.subs[x].start == t.n.subs[x].start && s.n.subs[x].last == t.n.subs[x].last
    decreases j
  {
    if i < j {
      RunMonotone(run, i, j - 1, x);
      RunStepMonotone(run, j - 1, x);
    }
  }

  /** Reader `r` is past read_begin at state i and read_retry would still return false at j. */
  ghost predicate StillValid(run: Run, i: nat, j: nat, r: ThreadId, x: SubId)
    requires IsRun(run) && i <= j < |run.states| && LiveThrough(run, i, j, x)
  {
    && run.states[i].Reads(r) && run.states[i].readers[r].sub == x
    && run.states[j].n.subs[x].stamp == run.states[i].readers[r].snapSeq
  }

  /** If read_begin returned q and a later read_retry still sees q, then at no moment between the
      two was an invalidation overlapping the subscription in its window. */
  lemma CollisionRetrySound(run: Run, i: nat, j: nat, r: ThreadId, x: SubId, k: nat, w: ThreadId)
    requires IsRun(run) && i <= k <= j < |run.states|
    requires LiveThrough(run, i, j, x) && StillValid(run, i, j, r, x)
    requires run.states[k].InWindow(w)
    ensures !run.states[k].n.subs[x].Overlaps(run.states[k].writers[w].range)
  {
    RunInvariant(run, i);
    RunInvariant(run, k);
    RunMonotone(run, i, k, x);
    RunMonotone(run, k, j, x);
    var s, t := run.states[i], run.states[k];
    assert ReaderOk(s.n.epoch, s.readers[r], s.clients[x], s.n.subs[x], s.pte);
    assert PairOk(t.n.epoch, t.writers[w], x, t.clients[x], t.n.subs[x]);
  }

  /** Hence the primary entries of the whole subscription did not move in between. */
  lemma {:induction false} CollisionRetryStable(run: Run, i: nat, j: nat, r: ThreadId, x: SubId, k: nat, a: int)
    requires IsRun(run) && i <= k <= j < |run.states|
    requires LiveThrough(run, i, j, x) && StillValid(run, i, j, r, x)
    requires run.states[i].n.subs[x].Contains(a)
    ensures run.states[k].Entry(a) == run.states[i].Entry(a)
    decreases k
  {
    if i < k {
      CollisionRetryStable(run, i, j, r, x, k - 1, a);
      var s, t, step := run.states[k - 1], run.states[k], run.steps[k - 1];
      assert StepAt(run, k - 1);
      if step.PteChangeStep? && step.a == a {
        RunMonotone(run, i, k - 1, x);
        CollisionRetrySound(run, i, j, r, x, k - 1, step.w);
        assert s.n.subs[x].Overlaps(s.writers[step.w].range);
        assert false;
      }
    }
  }

  // Removal

  /** A callback of `x` is running or is going to be started by this invalidation. */
  predicate Calls(W: Writer, x: SubId) {
    match W
    case Walking(_, _, _, node, _, _, finishes) => x == node || x in finishes
    case Finishing(_, _, _, _, finishes) => x in finishes
    case _ => false
  }

  /** `mmu_interval_notifier_remove` returns to its caller at step i. */
  ghost predicate RemoveReturnsAt(run: Run, i: nat, x: SubId)
    requires IsRun(run)
  {
    && i < |run.steps|
    && (run.steps[i] == RemoveReturnStep(x)
        || (run.steps[i] == RemoveStep(x) && x in run.states[i].n.subs && RemoveWait(run.states[i].n, x) == 0))
  }

  lemma {:induction false} StaysRemoved(run: Run, i: nat, j: nat, x: SubId)
    requires IsRun(run) && RemoveReturnsAt(run, i, x) && i < j < |run.states|
    requires forall k :: i < k < j ==> !(run.steps[k].InsertStep? && run.steps[k].x == x)
    ensures x !in run.states[j].clients
    decreases j
  {
    var s, t := run.states[j - 1], run.states[j];
    assert StepAt(run, j - 1);
    if i + 1 < j {
      StaysRemoved(run, i, j - 1, x);
    }
  }

  /** Once remove has returned, no callback of the subscription is running, none is pending, and
      none starts until the subscription is inserted again. */
  lemma RemovalQuiescent(run: Run, i: nat, j: nat, x: SubId, w: ThreadId)
    requires IsRun(run) && RemoveReturnsAt(run, i, x) && i < j < |run.states|
    requires forall k :: i < k < j ==> !(run.steps[k].InsertStep? && run.steps[k].x == x)
    requires w in run.states[j].writers
    ensures !Calls(run.states[j].writers[w], x)
    ensures x !in run.states[j].n.itree && x !in run.states[j].n.deferred
  {
    StaysRemoved(run, i, j, x);
    RunInvariant(run, j);
    assert WalkOk(run.states[j].n, run.states[j].writers[w]);
  }

  // Epochs

  /** Neither warning on the even path can fire, and a matched invalidation keeps seeing its own
      sequence number until its own inv_end. */
  lemma WarningsUnreachable(run: Run, i: nat)
    requires IsRun(run) && i < |run.states|
    ensures var s := run.states[i];
            && (s.n.active == 0 ==> !s.n.Invalidating())
            && (s.n.deferred != [] ==> s.n.Invalidating())
            && (forall x :: s.IsLive(x) && !s.n.Invalidating() ==> !s.n.subs[x].rbEmpty && x in s.n.itree)
            && (forall x :: s.IsLive(x) ==> s.n.subs[x].stamp % 2 == 1 && s.n.subs[x].stamp <= s.n.epoch)
            && (forall w :: w in s.writers && (s.writers[w].Walking? || s.writers[w].Finishing?) ==>
                  s.writers[w].curSeq == s.n.epoch)
            && (forall w :: s.InWindow(w) && s.writers[w].matched ==> s.writers[w].curSeq == s.n.epoch)
  {
    RunInvariant(run, i);
    var s := run.states[i];
    forall x | s.IsLive(x)
      ensures !s.n.Invalidating() ==> !s.n.subs[x].rbEmpty && x in s.n.itree
      ensures s.n.subs[x].stamp % 2 == 1 && s.n.subs[x].stamp <= s.n.epoch
    {
      assert ClientOk(s.n, x, s.clients[x], s.pte);
    }
    forall w | w in s.writers ensures WalkOk(s.n, s.writers[w]) {
    }
  }

  /** The tree does not change within an odd epoch, and only inv_end, which wakes the waiters,
      leaves one. */
  lemma OddEpochStep(s: State, t: State, step: Step)
    requires Inv(s) && NextStep(s, t, step) && s.n.Invalidating()
    ensures t.n.epoch == s.n.epoch ==> t.n.itree == s.n.itree
    ensures t.n.epoch != s.n.epoch ==>
              (step.InvEndStep? || step.StartReturnStep?) && t.n.epoch == s.n.epoch + 1 && t.n.active == 0
  {
    InvEndEffect(s.n);
  }

  lemma RunOddEpochStep(run: Run, k: nat)
    requires IsRun(run) && k < |run.steps|
    ensures var s, t := run.states[k], run.states[k + 1];
            s.n.Invalidating() && t.n.epoch == s.n.epoch ==> t.n.itree == s.n.itree
  {
    RunInvariant(run, k);
    assert StepAt(run, k);
    if run.states[k].n.Invalidating() {
      OddEpochStep(run.states[k], run.states[k + 1], run.steps[k]);
    }
  }

  ghost predicate SameOddEpoch(run: Run, i: nat, j: nat)
    requires i <= j < |run.states|
  {
    && run.states[i].n.Invalidating()
    && forall k {:trigger run.states[k]} :: i <= k <= j ==> run.states[k].n.epoch == run.states[i].n.epoch
  }

  lemma {:induction false} TreeFrozen(run: Run, i: nat, j: nat)
    requires IsRun(run) && i <= j < |run.states| && SameOddEpoch(run, i, j)
    ensures run.states[j].n.itree == run.states[i].n.itree
    decreases j
  {
    if i < j {
      TreeFrozen(run, i, j - 1);
      RunOddEpochStep(run, j - 1);
    }
  }

  // Delivery

  /** Successful callbacks of `x` made by invalidation `w` in the steps [i, j). */
  ghost function CallbackCount(run: Run, w: ThreadId, x: SubId, i: nat, j: nat): nat
    requires IsRun(run) && i <= j < |run.states|
    decreases j
  {
    if i == j then 0
    else
      CallbackCount(run, w, x, i, j - 1) +
      if CallsBack(run.states[j - 1], run.steps[j - 1], w, x) then 1 else 0
  }

  /** From state i to state j, invalidation `w` is in its callbacks or its finish pass. */
  ghost predicate WalksThrough(run: Run, w: ThreadId, i: nat, j: nat)
    requires j < |run.states|
  {
    forall k {:trigger run.states[k]} :: i <= k <= j ==>
      w in run.states[k].writers && (run.states[k].writers[w].Walking? || run.states[k].writers[w].Finishing?)
  }

  /** The step is a successful callback of `x` by invalidation `w`. */
  predicate CallsBack(s: State, step: Step, w: ThreadId, x: SubId) {
    && step.CallbackReturnStep? && step.w == w && step.ok
    && w in s.writers && s.writers[w].Walking? && s.writers[w].node == x
  }

  /** Nothing but its own callbacks changes what an invalidation has visited. */
  lemma VisitedStep(s: State, t: State, step: Step, w: ThreadId, x: SubId)
    requires NextStep(s, t, step) && w in s.writers && w in t.writers
    requires s.writers[w].Walking? || s.writers[w].Finishing?
    requires t.writers[w].Walking? || (t.writers[w].Finishing? && !t.writers[w].failed)
    requires WalkOk(s.n, s.writers[w])
    ensures t.writers[w].range == s.writers[w].range
    ensures s.writers[w].Finishing? ==> !s.writers[w].failed
    ensures x in t.writers[w].visited <==> x in s.writers[w].visited || CallsBack(s, step, w, x)
    ensures CallsBack(s, step, w, x) ==> x !in s.writers[w].visited
  {
  }

  lemma WalkStep(run: Run, w: ThreadId, x: SubId, i: nat, k: nat)
    requires IsRun(run) && i <= k < |run.steps| && WalksThrough(run, w, k, k + 1)
    requires run.states[k + 1].writers[w].Finishing? ==> !run.states[k + 1].writers[w].failed
    ensures var s, t := run.states[k], run.states[k + 1];
            && t.n.epoch == s.n.epoch && t.writers[w].range == s.writers[w].range
            && (s.writers[w].Finishing? ==> !s.writers[w].failed)
            && CallbackCount(run, w, x, i, k + 1) - CallbackCount(run, w, x, i, k)
               == (if x in t.writers[w].visited then 1 else 0) - (if x in s.writers[w].visited then 1 else 0)
  {
    var s, t := run.states[k], run.states[k + 1];
    assert s.n.epoch == t.n.epoch by {
      WalkEpoch(run, w, k);
    }
    assert WalkOk(s.n, s.writers[w]) && NextStep(s, t, run.steps[k]) by {
      RunInvariant(run, k);
      assert StepAt(run, k);
    }
    VisitedStep(s, t, run.steps[k], w, x);
  }

  lemma WalkEpoch(run: Run, w: ThreadId, k: nat)
    requires IsRun(run) && k < |run.steps| && WalksThrough(run, w, k, k + 1)
    ensures run.states[k + 1].n.epoch == run.states[k].n.epoch
  {
    RunInvariant(run, k);
    RunInvariant(run, k + 1);
    var s, t := run.states[k], run.states[k + 1];
    assert StepAt(run, k);
    assert WalkOk(s.n, s.writers[w]) && WalkOk(t.n, t.writers[w]);
    OddEpochStep(s, t, run.steps[k]);
  }

  lemma WalkBegins(run: Run, w: ThreadId, i: nat)
    requires IsRun(run) && i < |run.steps| && WalksThrough(run, w, i + 1, i + 1)
    requires run.steps[i].InvStartStep? && run.steps[i].w == w
    ensures var s, t := run.states[i], run.states[i + 1];
            && t.n.Invalidating() && t.n.itree == s.n.itree && t.n.subs == s.n.subs
            && t.writers[w].visited == {} && t.writers[w].Walking?
            && t.writers[w].range == run.steps[i].range
  {
    assert StepAt(run, i);
  }

  /** While an invalidation is in its callbacks it has called each visited node exactly once,
      and no other. */
  lemma {:induction false} CallbackCountIsVisited(run: Run, w: ThreadId, x: SubId, i: nat, j: nat)
    requires IsRun(run) && i < j < |run.states| && WalksThrough(run, w, i + 1, j)
    requires run.steps[i].InvStartStep? && run.steps[i].w == w
    requires run.states[j].writers[w].Finishing? ==> !run.states[j].writers[w].failed
    ensures CallbackCount(run, w, x, i, j) == if x in run.states[j].writers[w].visited then 1 else 0
    ensures run.states[j].writers[w].range == run.steps[i].range
    ensures SameOddEpoch(run, i + 1, j)
    decreases j
  {
    WalkBegins(run, w, i);
    if i + 1 < j {
      WalkStep(run, w, x, i, j - 1);
      CallbackCountIsVisited(run, w, x, i, j - 1);
    } else {
      assert CallbackCount(run, w, x, i, i) == 0;
    }
  }

  lemma BoundsStep(run: Run, x: SubId, k: nat)
    requires IsRun(run) && k < |run.steps| && SameOddEpoch(run, k, k + 1) && x in run.states[k].n.itree
    ensures var s, t := run.states[k], run.states[k + 1];
            && x in s.n.subs && x in t.n.subs && x in t.n.itree
            && t.n.subs[x].start == s.n.subs[x].start && t.n.subs[x].last == s.n.subs[x].last
  {
    RunInvariant(run, k);
    RunOddEpochStep(run, k);
    assert StepAt(run, k);
    InvEndEffect(run.states[k].n);
  }

  /** A node keeps its place and its bounds while the epoch is odd and unchanged. */
  lemma {:induction false} BoundsHeld(run: Run, x: SubId, i: nat, j: nat)
    requires IsRun(run) && i <= j < |run.states| && SameOddEpoch(run, i, j) && x in run.states[i].n.itree
    ensures var s, t := run.states[i], run.states[j];
            && x in s.n.subs && x in t.n.subs && x in t.n.itree
            && t.n.subs[x].start == s.n.subs[x].start && t.n.subs[x].last == s.n.subs[x].last
    decreases j
  {
    if i < j {
      BoundsHeld(run, x, i, j - 1);
      BoundsStep(run, x, j - 1);
    } else {
      RunInvariant(run, i);
    }
  }

  lemma WindowOpens(run: Run, w: ThreadId, j: nat)
    requires IsRun(run) && j < |run.steps|
    requires run.steps[j] == StartReturnStep(w) && run.states[j + 1].InWindow(w)
    ensures var s := run.states[j];
            && w in s.writers && s.writers[w].Finishing? && !s.writers[w].failed
            && (forall x :: x in s.writers[w].visited <==>
                  x in s.n.itree && x in s.n.subs && s.n.subs[x].Overlaps(s.writers[w].range))
  {
    RunInvariant(run, j);
    assert StepAt(run, j);
    assert WalkOk(run.states[j].n, run.states[j].writers[w]);
  }

  /** An invalidation whose start succeeds has called every subscription that was in the tree and
      met its range when it started, exactly once, and has called nothing else. */
  lemma DeliveredExactlyOnce(run: Run, w: ThreadId, x: SubId, i: nat, j: nat)
    requires IsRun(run) && i < j < |run.steps| && WalksThrough(run, w, i + 1, j)
    requires run.steps[i].InvStartStep? && run.steps[i].w == w
    requires run.steps[j] == StartReturnStep(w) && run.states[j + 1].InWindow(w)
    ensures CallbackCount(run, w, x, i, j) ==
            if x in run.states[i].n.itree && x in run.states[i].n.subs
               && run.states[i].n.subs[x].Overlaps(run.steps[i].range) then 1 else 0
  {
    WindowOpens(run, w, j);
    CallbackCountIsVisited(run, w, x, i, j);
    WalkBegins(run, w, i);
    TreeFrozen(run, i + 1, j);
    if x in run.states[i + 1].n.itree {
      BoundsHeld(run, x, i + 1, j);
    }
  }

  // In terms of the range a subscription was inserted with

  /** Step h inserts x for [start, start + length), and x lives on from then to state j. */
  ghost predicate InsertedAt(run: Run, h: nat, j: nat, x: SubId, start: nat, length: nat) {
    && IsRun(run) && h < |run.steps| && h < j < |run.states|
    && run.steps[h] == InsertStep(x, start, length) && Insertable(start, length)
    && LiveThrough(run, h + 1, j, x)
  }

  /** The range holds an address of [start, start + length). */
  predicate Meets(r: Range, start: nat, length: nat) {
    exists a :: r.Contains(a) && start <= a < start + length
  }

  lemma BoundsAreArguments(run: Run, h: nat, j: nat, x: SubId, start: nat, length: nat)
    requires InsertedAt(run, h, j, x, start, length)
    ensures var sub := run.states[j].n.subs[x]; sub.start == start && sub.last == start + length - 1
  {
    assert StepAt(run, h);
    RunMonotone(run, h + 1, j, x);
  }

  /** In all of its life a subscription covers exactly the addresses it was inserted for. */
  lemma CoversArguments(run: Run, h: nat, j: nat, x: SubId, start: nat, length: nat, a: int)
    requires InsertedAt(run, h, j, x, start, length)
    ensures run.states[j].n.subs[x].Contains(a) <==> start <= a < start + length
  {
    BoundsAreArguments(run, h, j, x, start, length);
  }

  /** The test of the tree iterators finds a common address, if the range is not empty. */
  lemma OverlapMeets(sub: Sub, r: Range, start: nat, length: nat)
    requires r.start < r.end && length > 0 && sub.start == start && sub.last == start + length - 1
    ensures sub.Overlaps(r) <==> Meets(r, start, length)
  {
    if sub.Overlaps(r) {
      var a := if r.start < start then start else r.start;
      assert r.Contains(a);
    }
  }

  /** Invalidation w begins at step i and enters its window with step j; if it finds nothing to call,
      the two are the same. */
  ghost predicate EntersWindow(run: Run, w: ThreadId, i: nat, j: nat)
    requires IsRun(run)
  {
    && i <= j < |run.steps| && run.steps[i].InvStartStep? && run.steps[i].w == w && run.states[j + 1].InWindow(w)
    && (i < j ==> run.steps[j] == StartReturnStep(w) && WalksThrough(run, w, i + 1, j))
  }

  /** An invalidation that begins while x is in the tree, and enters its window, has called x back
      exactly once if its range holds an address that x was inserted for, and not at all otherwise.
      A live x outside the tree has been inserted in this epoch, and reads of it collide. */
  lemma DeliveredToArguments(run: Run, h: nat, x: SubId, start: nat, length: nat, w: ThreadId, i: nat, j: nat)
    requires InsertedAt(run, h, i, x, start, length) && EntersWindow(run, w, i, j)
    ensures x in run.states[i].n.itree ==>
              CallbackCount(run, w, x, i, j) == if Meets(run.steps[i].range, start, length) then 1 else 0
    ensures x !in run.states[i].n.itree ==>
              run.states[i].n.Invalidating() && run.states[i].n.subs[x].stamp == run.states[i].n.epoch
  {
    var s, r := run.states[i], run.steps[i].range;
    RunInvariant(run, i);
    assert ClientOk(s.n, x, s.clients[x], s.pte);
    assert StepAt(run, i);
    BoundsAreArguments(run, h, i, x, start, length);
    OverlapMeets(s.n.subs[x], r, start, length);
    if i < j {
      DeliveredExactlyOnce(run, w, x, i, j);
    } else {
      assert CallbackCount(run, w, x, i, i) == 0;
      assert !s.n.Matches(r);
    }
  }

  /** While `read_retry` still returns false, no invalidation in its window holds an address that x was
      inserted for, and no primary entry there has moved. */
  lemma RetryCoversArguments(run: Run, h: nat, i: nat, j: nat, r: ThreadId, x: SubId, start: nat, length: nat, k: nat, a: int)
    requires InsertedAt(run, h, j, x, start, length) && h < i <= k <= j && StillValid(run, i, j, r, x) && start <= a < start + length
    ensures forall w :: run.states[k].InWindow(w) ==> !run.states[k].writers[w].range.Contains(a)
    ensures run.states[k].Entry(a) == run.states[i].Entry(a)
  {
    CoversArguments(run, h, i, x, start, length, a);
    CoversArguments(run, h, k, x, start, length, a);
    CollisionRetryStable(run, i, j, r, x, k, a);
    forall w | run.states[k].InWindow(w) ensures !run.states[k].writers[w].range.Contains(a) {
      CollisionRetrySound(run, i, j, r, x, k, w);
    }
  }

  /** What a new subscription starts with: it is in the tree unless the tree is frozen; its stamp is the last odd
      number up to the current one; and a read of it collides exactly while invalidations are active, which keeps
      or makes the number odd. */
  lemma FreshSubscription(run: Run, h: nat, x: SubId, start: nat, length: nat)
    requires IsRun(run) && h < |run.steps| && run.steps[h] == InsertStep(x, start, length) && Insertable(start, length)
    ensures var s, t := run.states[h], run.states[h + 1];
            && t.IsLive(x) && (x in t.n.itree <==> s.n.epoch % 2 == 0)
            && (t.n.subs[x].stamp == t.n.epoch <==> s.n.active > 0)
            && t.n.subs[x].stamp % 2 == 1 && t.n.epoch - 1 <= t.n.subs[x].stamp
            && t.n.epoch == (if s.n.active > 0 && s.n.epoch % 2 == 0 then s.n.epoch + 1 else s.n.epoch)
  {
    RunInvariant(run, h);
    assert StepAt(run, h);
    assert x !in run.states[h].n.itree;
  }

  /** An invalidation whose range holds no address of a subscription in the tree moves no number, makes no
      callback and enters its window at once; otherwise the number becomes odd and callbacks begin. */
  lemma StartEffect(run: Run, i: nat, w: ThreadId)
    requires IsRun(run) && i < |run.steps| && run.steps[i].InvStartStep? && run.steps[i].w == w
    ensures var s, t, r := run.states[i], run.states[i + 1], run.steps[i].range;
            && t.n.active == s.n.active + 1 && t.n.itree == s.n.itree && t.n.deferred == s.n.deferred && t.n.subs == s.n.subs
            && if exists x, a :: x in s.n.itree && x in s.n.subs && s.n.subs[x].Contains(a) && r.Contains(a)
               then t.n.epoch % 2 == 1 && s.n.epoch <= t.n.epoch <= s.n.epoch + 1 && w in t.writers && t.writers[w].Walking?
               else t.n.epoch == s.n.epoch && t.InWindow(w)
  {
    var s, r := run.states[i], run.steps[i].range;
    RunInvariant(run, i);
    RunNonEmpty(run, i);
    assert StepAt(run, i);
    if s.n.Matches(r) {
      var x :| x in s.n.itree && s.n.subs[x].Overlaps(r);
      OverlapShares(s.n.subs[x], r);
    }
  }

  ghost predicate NonEmpty(n: Subscriptions) { forall x :: x in n.subs ==> n.subs[x].start <= n.subs[x].last }

  lemma StepNonEmpty(s: State, t: State, step: Step)
    requires EpochInv(s) && NonEmpty(s.n) && NextStep(s, t, step)
    ensures NonEmpty(t.n)
  {
    if s.n.active > 0 {
      InvEndEffect(s.n);
    }
  }

  lemma {:induction false} RunNonEmpty(run: Run, k: nat)
    requires IsRun(run) && k < |run.states|
    ensures NonEmpty(run.states[k].n)
  {
    if k > 0 {
      RunNonEmpty(run, k - 1);
      RunInvariant(run, k - 1);
      assert StepAt(run, k - 1);
      StepNonEmpty(run.states[k - 1], run.states[k], run.steps[k - 1]);
    }
  }

  /** A subscription that is not empty shares an address with a range it overlaps. */
  lemma OverlapShares(sub: Sub, r: Range)
    requires r.start < r.end && sub.start <= sub.last && sub.Overlaps(r)
    ensures exists a :: sub.Contains(a) && r.Contains(a)
  {
    var a := if r.start < sub.start then sub.start else r.start;
    assert sub.Contains(a) && r.Contains(a);
  }
}
