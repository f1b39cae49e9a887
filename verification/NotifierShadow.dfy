/** How the shadow entries of a client come and go, and when a read is to be repeated. */
module NotifierShadow {
  import opened NotifierState
  import opened NotifierProtocol
  import opened NotifierInvariant
  import opened NotifierTheorems

  /** With this step an invalidation of address a tears down what x has there. */
  predicate Tears(s: State, step: Step, x: SubId, a: int) {
    match step
    case UserLockStep(w, twoPass) =>
      && w in s.writers && s.writers[w].Walking? && !twoPass && s.writers[w].node == x
      && s.writers[w].range.start <= a < s.writers[w].range.end
    case FinishStep(w) =>
      && w in s.writers && s.writers[w].Finishing? && s.writers[w].finishes != [] && s.writers[w].finishes[0] == x
      && s.writers[w].range.start <= a < s.writers[w].range.end
    case _ => false
  }

  /** With this step a reader of x is told not to retry, and has collected an entry for a. */
  predicate Commits(s: State, step: Step, x: SubId, a: int) {
    && step.ReadRetryStep? && s.Reads(step.r) && s.readers[step.r].sub == x && a in s.readers[step.r].snap
    && x in s.n.subs && s.n.subs[x].stamp == s.readers[step.r].snapSeq
  }

  /** An entry goes exactly when an invalidation that holds its address tears it down, and is set exactly
      by a reader that need not retry; no other step touches it. */
  lemma EntryFate(run: Run, k: nat, x: SubId, a: int)
    requires IsRun(run) && k < |run.steps| && x in run.states[k].clients && x in run.states[k + 1].clients
    ensures var s, step := run.states[k], run.steps[k];
            var was, now := s.clients[x].shadow, run.states[k + 1].clients[x].shadow;
            if Tears(s, step, x, a) then a !in now
            else if Commits(s, step, x, a) then a in now && now[a] == s.readers[step.r].snap[a]
            else (a in now <==> a in was) && (a in was ==> now[a] == was[a])
  {
    assert StepAt(run, k);
  }

  /** A callback for x runs its user-locked section, in an epoch other than q. */
  predicate Renews(s: State, step: Step, x: SubId, q: int) {
    && step.UserLockStep? && step.w in s.writers && s.writers[step.w].Walking?
    && s.writers[step.w].node == x && s.writers[step.w].curSeq != q
  }

  lemma StampStep(s: State, t: State, step: Step, x: SubId, q: int)
    requires Inv(s) && NextStep(s, t, step) && s.IsLive(x) && t.IsLive(x) && q <= s.n.subs[x].stamp
    ensures t.n.subs[x].stamp == q <==> s.n.subs[x].stamp == q && !Renews(s, step, x, q)
  {
    assert ClientOk(s.n, x, s.clients[x], s.pte);
    if step.InvEndStep? || step.StartReturnStep? {
      EndMonotone(s, t, step, x);
    } else if step.UserLockStep? {
      assert WalkOk(s.n, s.writers[step.w]);
    }
  }

  lemma {:induction false} StampHeld(run: Run, i: nat, j: nat, x: SubId)
    requires IsRun(run) && i <= j < |run.states| && LiveThrough(run, i, j, x)
    ensures var q := run.states[i].n.subs[x].stamp;
            run.states[j].n.subs[x].stamp == q <==> forall l :: i <= l < j ==> !Renews(run.states[l], run.steps[l], x, q)
  {
    if i < j {
      StampHeld(run, i, j - 1, x);
      RunMonotone(run, i, j - 1, x);
      RunInvariant(run, j - 1);
      assert StepAt(run, j - 1);
      StampStep(run.states[j - 1], run.states[j], run.steps[j - 1], x, run.states[i].n.subs[x].stamp);
    }
  }

  /** Reader r samples x with step i and is still in that read section in state j. */
  ghost predicate ReadsThrough(run: Run, i: nat, j: nat, r: ThreadId, x: SubId) {
    && IsRun(run) && i < j < |run.states| && run.steps[i] == ReadSampleStep(r, x) && LiveThrough(run, i, j, x)
    && forall l {:trigger run.states[l]} :: i < l <= j ==> r in run.states[l].readers && !run.states[l].readers[r].Resting?
  }

  lemma {:induction false} SampleHeld(run: Run, i: nat, j: nat, r: ThreadId, x: SubId)
    requires ReadsThrough(run, i, j, r, x)
    ensures run.states[j].readers[r].sub == x && run.states[j].readers[r].snapSeq == run.states[i].n.subs[x].stamp
  {
    assert StepAt(run, j - 1);
    if i < j - 1 {
      SampleHeld(run, i, j - 1, r, x);
    }
  }

  /** `read_retry` tells the reader to repeat exactly when, since its sample, a callback for the subscription has
      run in an epoch other than the sampled one. */
  lemma RetryExact(run: Run, i: nat, j: nat, r: ThreadId, x: SubId, a: int)
    requires ReadsThrough(run, i, j, r, x) && j < |run.steps| && run.steps[j] == ReadRetryStep(r)
    requires run.states[j].Reads(r) && a in run.states[j].readers[r].snap
    ensures Commits(run.states[j], run.steps[j], x, a) <==>
            forall l :: i <= l < j ==> !Renews(run.states[l], run.steps[l], x, run.states[i].n.subs[x].stamp)
  {
    SampleHeld(run, i, j, r, x);
    StampHeld(run, i, j, x);
  }

  lemma {:induction false} SnapHeld(run: Run, l: nat, j: nat, r: ThreadId, a: int)
    requires IsRun(run) && l < j < |run.states| && run.steps[l] == ReadPteStep(r, a)
    requires forall m {:trigger run.states[m]} :: l < m <= j ==> r in run.states[m].readers && !run.states[m].readers[r].Resting?
    ensures run.states[j].Reads(r) && a in run.states[j].readers[r].snap
  {
    assert StepAt(run, j - 1);
    if l < j - 1 {
      SnapHeld(run, l, j - 1, r, a);
    }
  }

  /** The collision-retry scheme as its user sees it: sample, read an entry, ask whether to retry.  If no callback
      for the subscription has run in between, the entry is used, and it is the one the page table then holds. */
  lemma ReadIsCurrent(run: Run, i: nat, l: nat, j: nat, r: ThreadId, x: SubId, a: int)
    requires i < l < j < |run.steps| && ReadsThrough(run, i, j, r, x)
    requires run.steps[l] == ReadPteStep(r, a) && run.steps[j] == ReadRetryStep(r)
    requires forall m :: i <= m < j ==> !Renews(run.states[m], run.steps[m], x, run.states[i].n.subs[x].stamp)
    ensures var t := run.states[j + 1]; t.IsLive(x) && a in t.clients[x].shadow && t.clients[x].shadow[a] == t.Entry(a)
  {
    SnapHeld(run, l, j, r, a);
    RetryExact(run, i, j, r, x, a);
    assert StepAt(run, j);
    EntryFate(run, j, x, a);
    ShadowCoherence(run, j + 1, x, a);
  }
}
