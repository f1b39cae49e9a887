/** Every step of the protocol keeps the invariant. */
module NotifierProofs {
  import opened NotifierState
  import opened NotifierProtocol
  import opened NotifierInvariant

  lemma InitEstablishes(s: State)
    requires Init(s)
    ensures Inv(s)
  {
    assert ActiveWriters(s) == {};
  }

  /** Readers do not notice a step that raises no stamp and changes no entry. */
  lemma ReadersFrame(s: State, t: State)
    requires ReaderInv(s) && t.readers == s.readers && t.pte == s.pte && s.n.epoch <= t.n.epoch
    requires forall x :: x in t.clients && x in t.n.subs && t.clients[x].phase.Live? ==>
               (x in s.clients && x in s.n.subs && s.clients[x].phase.Live?
                && s.n.subs[x].start == t.n.subs[x].start && s.n.subs[x].last == t.n.subs[x].last
                && s.n.subs[x].stamp == t.n.subs[x].stamp)
               || (forall r :: r in s.readers && !s.readers[r].Resting? ==> s.readers[r].sub != x)
    ensures ReaderInv(t)
  {
    forall r | r in t.readers && !t.readers[r].Resting?
               && t.readers[r].sub in t.clients && t.readers[r].sub in t.n.subs
      ensures ReaderOk(t.n.epoch, t.readers[r], t.clients[t.readers[r].sub], t.n.subs[t.readers[r].sub], t.pte)
    {
      var x := t.readers[r].sub;
      if t.clients[x].phase.Live? {
        assert ReaderOk(s.n.epoch, s.readers[r], s.clients[x], s.n.subs[x], s.pte);
      }
    }
  }

  /** Raising an even epoch to odd is harmless: no client meets an open window at even epochs. */
  lemma RaiseKeepsPair(e: nat, W: Writer, x: SubId, c: Client, sub: Sub, n: Subscriptions)
    requires PairOk(e, W, x, c, sub) && n.epoch == e && WalkOk(n, W)
    ensures PairOk(SetLowBit(e), W, x, c, sub)
  {
  }

  lemma InvStartKeeps(s: State, t: State, w: ThreadId, range: Range, blockable: bool, node: SubId)
    requires Inv(s) && DoInvStart(s, t, w, range, blockable, node)
    ensures Inv(t)
  {
    assert ActiveWriters(t) == ActiveWriters(s) + {w};
    forall v | v in t.writers ensures WalkOk(t.n, t.writers[v]) {
      assert WalkOk(s.n, s.writers[v]);
    }
    forall v, x | v in t.writers && x in t.clients && x in t.n.subs
      ensures PairOk(t.n.epoch, t.writers[v], x, t.clients[x], t.n.subs[x])
    {
      assert ClientOk(s.n, x, s.clients[x], s.pte);
      if v == w {
        NewWriterPair(s, t, w, range, x);
      } else {
        RaiseKeepsPair(s.n.epoch, s.writers[v], x, s.clients[x], s.n.subs[x], s.n);
      }
    }
    forall x | x in t.clients ensures ClientOk(t.n, x, t.clients[x], t.pte) {
      assert ClientOk(s.n, x, s.clients[x], s.pte);
    }
    ReadersFrame(s, t);
  }

  /** A new invalidation that found nothing to call meets only freshly deferred subscriptions. */
  lemma NewWriterPair(s: State, t: State, w: ThreadId, range: Range, x: SubId)
    requires Inv(s) && x in s.clients && x in s.n.subs && ClientOk(s.n, x, s.clients[x], s.pte)
    requires w in t.writers
    requires if s.n.Matches(range)
             then t.writers[w].Walking? && t.writers[w].stage.Entered? && t.writers[w].visited == {}
             else t.writers[w].Window? && t.writers[w].range == range
    ensures PairOk(if s.n.Matches(range) then SetLowBit(s.n.epoch) else s.n.epoch,
                   t.writers[w], x, s.clients[x], s.n.subs[x])
  {
    if !s.n.Matches(range) && s.clients[x].phase.Live? {
      var sub := s.n.subs[x];
      if x in s.n.itree {
        assert !sub.Overlaps(range);
        assert Outside(s.clients[x].shadow, range);
      } else {
        assert s.n.deferred != [];
      }
    }
  }

  lemma UserLockKeeps(s: State, t: State, w: ThreadId, twoPass: bool)
    requires Inv(s) && DoUserLock(s, t, w, twoPass)
    ensures Inv(t)
  {
    assert ActiveWriters(t) == ActiveWriters(s);
    assert WalkOk(s.n, s.writers[w]);
    forall v | v in t.writers ensures WalkOk(t.n, t.writers[v]) {
      assert WalkOk(s.n, s.writers[v]);
    }
    UserLockClients(s, t, w, twoPass);
    forall v, x | v in t.writers && x in t.clients && x in t.n.subs
      ensures PairOk(t.n.epoch, t.writers[v], x, t.clients[x], t.n.subs[x])
    {
      UserLockPair(s, t, w, twoPass, v, x);
    }
    UserLockReaders(s, t, w, twoPass);
  }

  lemma UserLockClients(s: State, t: State, w: ThreadId, twoPass: bool)
    requires ClientInv(s) && DoUserLock(s, t, w, twoPass) && WalkOk(s.n, s.writers[w])
    ensures ClientInv(t)
  {
    forall x | x in t.clients ensures ClientOk(t.n, x, t.clients[x], t.pte) {
      assert ClientOk(s.n, x, s.clients[x], s.pte);
    }
  }

  lemma UserLockPair(s: State, t: State, w: ThreadId, twoPass: bool, v: ThreadId, x: SubId)
    requires DoUserLock(s, t, w, twoPass)
    requires v in s.writers && x in s.clients && x in s.n.subs
    requires WalkOk(s.n, s.writers[w]) && PairOk(s.n.epoch, s.writers[v], x, s.clients[x], s.n.subs[x])
    ensures PairOk(t.n.epoch, t.writers[v], x, t.clients[x], t.n.subs[x])
  {
  }

  lemma UserLockReaders(s: State, t: State, w: ThreadId, twoPass: bool)
    requires ClientInv(s) && ReaderInv(s) && DoUserLock(s, t, w, twoPass) && WalkOk(s.n, s.writers[w])
    ensures ReaderInv(t)
  {
    forall r | r in t.readers && !t.readers[r].Resting?
               && t.readers[r].sub in t.clients && t.readers[r].sub in t.n.subs
      ensures ReaderOk(t.n.epoch, t.readers[r], t.clients[t.readers[r].sub], t.n.subs[t.readers[r].sub], t.pte)
    {
      var x := t.readers[r].sub;
      assert ReaderOk(s.n.epoch, s.readers[r], s.clients[x], s.n.subs[x], s.pte);
      assert ClientOk(s.n, x, s.clients[x], s.pte);
    }
  }

  lemma CallbackReturnKeeps(s: State, t: State, w: ThreadId, ok: bool, next: SubId)
    requires Inv(s) && DoCallbackReturn(s, t, w, ok, next)
    ensures Inv(t)
  {
    assert ActiveWriters(t) == ActiveWriters(s);
    assert WalkOk(s.n, s.writers[w]);
    CallbackReturnWalk(s, t, w, ok, next);
    forall x | x in t.clients && x in t.n.subs
      ensures PairOk(t.n.epoch, t.writers[w], x, t.clients[x], t.n.subs[x])
    {
      assert PairOk(s.n.epoch, s.writers[w], x, s.clients[x], s.n.subs[x]);
    }
  }

  lemma CallbackReturnWalk(s: State, t: State, w: ThreadId, ok: bool, next: SubId)
    requires s.n.WellFormed() && DoCallbackReturn(s, t, w, ok, next)
    requires WalkOk(s.n, s.writers[w])
    ensures WalkOk(t.n, t.writers[w])
  {
    var W := s.writers[w];
    var visited := W.visited + {W.node};
    if ok {
      forall x | x in s.n.itree && x in s.n.subs && s.n.subs[x].Overlaps(W.range) && x !in visited
        ensures x in Unvisited(s.n, W.range, visited)
      {
      }
    }
  }

  lemma FinishKeeps(s: State, t: State, w: ThreadId)
    requires Inv(s) && DoFinish(s, t, w)
    ensures Inv(t)
  {
    assert ActiveWriters(t) == ActiveWriters(s);
    assert WalkOk(s.n, s.writers[w]);
    ReadersFrame(s, t);
    forall v, x | v in t.writers && x in t.clients && x in t.n.subs
      ensures PairOk(t.n.epoch, t.writers[v], x, t.clients[x], t.n.subs[x])
    {
      FinishPair(s, t, w, v, x);
    }
    forall x | x in t.clients ensures ClientOk(t.n, x, t.clients[x], t.pte) {
      assert ClientOk(s.n, x, s.clients[x], s.pte);
    }
    assert WalkOk(t.n, t.writers[w]) by {
      var f := s.writers[w].finishes;
      assert forall i :: 0 <= i < |f[1..]| ==> f[1..][i] == f[i + 1];
    }
  }

  lemma FinishPair(s: State, t: State, w: ThreadId, v: ThreadId, x: SubId)
    requires DoFinish(s, t, w) && v in s.writers && x in s.clients && x in s.n.subs
    requires PairOk(s.n.epoch, s.writers[v], x, s.clients[x], s.n.subs[x])
    ensures PairOk(t.n.epoch, t.writers[v], x, t.clients[x], t.n.subs[x])
  {
    var f := s.writers[w].finishes;
    assert forall y :: y in f <==> y == f[0] || y in f[1..];
  }

  lemma PteChangeKeeps(s: State, t: State, w: ThreadId, a: int, v: int)
    requires Inv(s) && DoPteChange(s, t, w, a, v)
    ensures Inv(t)
  {
    assert ActiveWriters(t) == ActiveWriters(s);
  }

  lemma InsertKeeps(s: State, t: State, x: SubId, start: nat, length: nat)
    requires Inv(s) && DoInsert(s, t, x, start, length)
    ensures Inv(t)
  {
    if Insertable(start, length) {
      assert ActiveWriters(t) == ActiveWriters(s);
      forall v | v in t.writers ensures WalkOk(t.n, t.writers[v]) {
        InsertWalk(s, t, x, start, length, v);
      }
      forall v, y | v in t.writers && y in t.clients && y in t.n.subs
        ensures PairOk(t.n.epoch, t.writers[v], y, t.clients[y], t.n.subs[y])
      {
        assert WalkOk(s.n, s.writers[v]);
        if y == x {
          FreshPair(s, t, v, x);
        } else {
          RaiseKeepsPair(s.n.epoch, s.writers[v], y, s.clients[y], s.n.subs[y], s.n);
        }
      }
      InsertClients(s, t, x, start, length);
      ReadersFrame(s, t);
    }
  }

  lemma InsertClients(s: State, t: State, x: SubId, start: nat, length: nat)
    requires EpochInv(s) && ClientInv(s) && Insertable(start, length) && DoInsert(s, t, x, start, length)
    ensures ClientInv(t)
  {
    forall y | y in t.clients ensures ClientOk(t.n, y, t.clients[y], t.pte) {
      if y != x {
        assert ClientOk(s.n, y, s.clients[y], s.pte);
      }
    }
  }

  lemma InsertWalk(s: State, t: State, x: SubId, start: nat, length: nat, v: ThreadId)
    requires Inv(s) && Insertable(start, length) && DoInsert(s, t, x, start, length) && v in s.writers
    ensures WalkOk(t.n, t.writers[v])
  {
    assert WalkOk(s.n, s.writers[v]);
    if !s.writers[v].Quiet? {
      assert v in ActiveWriters(s);
    }
  }

  /** A fresh subscription carries the epoch whenever any invalidation is open. */
  lemma FreshPair(s: State, t: State, v: ThreadId, x: SubId)
    requires Inv(s) && v in s.writers && x !in s.clients && WalkOk(s.n, s.writers[v])
    requires x in t.clients && x in t.n.subs && t.clients[x] == Client(Live, map[])
    requires s.n.active != 0 ==> Odd(t.n.epoch) && t.n.subs[x].stamp == t.n.epoch
    ensures PairOk(t.n.epoch, s.writers[v], x, t.clients[x], t.n.subs[x])
  {
    if !s.writers[v].Quiet? {
      assert v in ActiveWriters(s);
    }
  }

  lemma {:induction false} WithoutDistinct(q: seq<SubId>, x: SubId)
    requires Distinct(q)
    ensures Distinct(Without(q, x))
  {
    if q != [] {
      assert forall i :: 0 <= i < |q[1..]| ==> q[1..][i] == q[i + 1];
      WithoutDistinct(q[1..], x);
      assert q[0] !in Without(q[1..], x);
    }
  }

  lemma RemoveKeeps(s: State, t: State, x: SubId)
    requires Inv(s) && DoRemove(s, t, x)
    ensures Inv(t)
  {
    assert EpochInv(t) by {
      assert ActiveWriters(t) == ActiveWriters(s);
      assert ClientOk(s.n, x, s.clients[x], s.pte);
      WithoutDistinct(s.n.deferred, x);
    }
    RemoveClients(s, t, x);
    forall v | v in t.writers ensures WalkOk(t.n, t.writers[v]) {
      assert WalkOk(s.n, s.writers[v]);
    }
    forall v, y | v in t.writers && y in t.clients && y in t.n.subs
      ensures PairOk(t.n.epoch, t.writers[v], y, t.clients[y], t.n.subs[y])
    {
      assert PairOk(s.n.epoch, s.writers[v], y, s.clients[y], s.n.subs[y]);
    }
    assert ReaderInv(t) by {
      ReadersFrame(s, t);
    }
  }

  lemma RemoveClients(s: State, t: State, x: SubId)
    requires EpochInv(s) && ClientInv(s) && DoRemove(s, t, x)
    ensures ClientInv(t)
  {
    forall y | y in t.clients ensures ClientOk(t.n, y, t.clients[y], t.pte) {
      assert ClientOk(s.n, y, s.clients[y], s.pte);
    }
    assert ClientOk(s.n, x, s.clients[x], s.pte);
  }

  // The end of an invalidation

  /** What `mn_itree_inv_end` does to the records: membership of exactly the deferred items flips,
      and only when the last open invalidation of an odd epoch ends. */
  lemma InvEndEffect(n: Subscriptions)
    requires n.WellFormed() && n.active > 0 && Distinct(n.deferred)
    ensures var m := InvEnd(n);
            && m.WellFormed() && m.active == n.active - 1 && m.subs.Keys == n.subs.Keys
            && if n.active == 1 && Odd(n.epoch)
               then m.epoch == n.epoch + 1 && m.deferred == []
                    && (forall x :: x in n.subs ==>
                          m.subs[x] == if x in n.deferred then n.subs[x].(rbEmpty := false) else n.subs[x])
                    && (forall x :: x !in n.deferred ==> (x in m.itree <==> x in n.itree))
                    && (forall x :: x in n.deferred ==> (x in m.itree <==> n.subs[x].rbEmpty))
               else m == n.(active := n.active - 1)
  {
    if n.active == 1 && Odd(n.epoch) {
      ApplyDeferredEffect(n.(active := 0, epoch := n.epoch + 1, deferred := []), n.deferred);
    }
  }

  predicate Ends(s: State, t: State, w: ThreadId) {
    && s.n.WellFormed() && s.n.active > 0 && s.Busy(w)
    && t == s.(n := InvEnd(s.n), writers := s.writers[w := Quiet])
  }

  lemma EndKeeps(s: State, t: State, w: ThreadId)
    requires Inv(s) && Ends(s, t, w)
    ensures Inv(t)
  {
    EndEpoch(s, t, w);
    EndClients(s, t, w);
    EndWriters(s, t, w);
    assert ReaderInv(t) by {
      InvEndEffect(s.n);
      ReadersFrame(s, t);
    }
  }

  lemma EndEpoch(s: State, t: State, w: ThreadId)
    requires EpochInv(s) && Ends(s, t, w)
    ensures EpochInv(t)
  {
    assert ActiveWriters(t) == ActiveWriters(s) - {w};
    InvEndEffect(s.n);
  }

  lemma EndClients(s: State, t: State, w: ThreadId)
    requires EpochInv(s) && ClientInv(s) && Ends(s, t, w)
    ensures ClientInv(t)
  {
    InvEndEffect(s.n);
    forall y | y in t.clients ensures ClientOk(t.n, y, t.clients[y], t.pte) {
      assert ClientOk(s.n, y, s.clients[y], s.pte);
    }
  }

  /** When the epoch moves, the ending invalidation was the only one open. */
  lemma EndWriters(s: State, t: State, w: ThreadId)
    requires EpochInv(s) && WalkInv(s) && PairInv(s) && Ends(s, t, w)
    ensures WalkInv(t) && PairInv(t)
  {
    InvEndEffect(s.n);
    if t.n.epoch != s.n.epoch {
      forall v | v in t.writers ensures t.writers[v].Quiet? {
        if !t.writers[v].Quiet? {
          assert {v, w} <= ActiveWriters(s);
          SubsetCount({v, w}, ActiveWriters(s));
        }
      }
    }
  }

  lemma SubsetCount(a: set<ThreadId>, b: set<ThreadId>)
    requires a <= b
    ensures |a| <= |b|
  {
    assert b == a + (b - a);
  }

  lemma StartReturnKeeps(s: State, t: State, w: ThreadId)
    requires Inv(s) && DoStartReturn(s, t, w)
    ensures Inv(t)
  {
    if s.writers[w].failed {
      EndKeeps(s, t, w);
    } else {
      assert ActiveWriters(t) == ActiveWriters(s);
      assert WalkOk(s.n, s.writers[w]);
      forall x | x in t.clients && x in t.n.subs
        ensures PairOk(t.n.epoch, t.writers[w], x, t.clients[x], t.n.subs[x])
      {
        assert PairOk(s.n.epoch, s.writers[w], x, s.clients[x], s.n.subs[x]);
        assert ClientOk(s.n, x, s.clients[x], s.pte);
      }
    }
  }

  lemma RemoveReturnKeeps(s: State, t: State, x: SubId)
    requires Inv(s) && DoRemoveReturn(s, t, x)
    ensures Inv(t)
  {
    assert ActiveWriters(t) == ActiveWriters(s);
  }

  lemma ReadSampleKeeps(s: State, t: State, r: ThreadId, x: SubId)
    requires Inv(s) && DoReadSample(s, t, r, x)
    ensures Inv(t)
  {
    assert ActiveWriters(t) == ActiveWriters(s);
  }

  lemma ReadReturnKeeps(s: State, t: State, r: ThreadId)
    requires Inv(s) && DoReadReturn(s, t, r)
    ensures Inv(t)
  {
    assert ActiveWriters(t) == ActiveWriters(s);
  }

  lemma ReadPteKeeps(s: State, t: State, r: ThreadId, a: int)
    requires Inv(s) && DoReadPte(s, t, r, a)
    ensures Inv(t)
  {
    assert ActiveWriters(t) == ActiveWriters(s);
  }

  lemma ReadRetryKeeps(s: State, t: State, r: ThreadId)
    requires Inv(s) && DoReadRetry(s, t, r)
    ensures Inv(t)
  {
    assert ActiveWriters(t) == ActiveWriters(s);
    ReadRetryClients(s, t, r);
  }

  lemma ReadRetryClients(s: State, t: State, r: ThreadId)
    requires ClientInv(s) && PairInv(s) && ReaderInv(s) && DoReadRetry(s, t, r)
    ensures ClientInv(t) && PairInv(t)
  {
  }

  /** The invariant is inductive. */
  lemma StepKeeps(s: State, t: State, step: Step)
    requires Inv(s) && NextStep(s, t, step)
    ensures Inv(t)
  {
    match step
    case InvStartStep(w, range, blockable, node) => InvStartKeeps(s, t, w, range, blockable, node);
    case UserLockStep(w, twoPass) => UserLockKeeps(s, t, w, twoPass);
    case CallbackReturnStep(w, ok, next) => CallbackReturnKeeps(s, t, w, ok, next);
    case FinishStep(w) => FinishKeeps(s, t, w);
    case StartReturnStep(w) => StartReturnKeeps(s, t, w);
    case PteChangeStep(w, a, v) => PteChangeKeeps(s, t, w, a, v);
    case InvEndStep(w) => EndKeeps(s, t, w);
    case InsertStep(x, start, length) => InsertKeeps(s, t, x, start, length);
    case RemoveStep(x) => RemoveKeeps(s, t, x);
    case RemoveReturnStep(x) => RemoveReturnKeeps(s, t, x);
    case ReadSampleStep(r, x) => ReadSampleKeeps(s, t, r, x);
    case ReadReturnStep(r) => ReadReturnKeeps(s, t, r);
    case ReadPteStep(r, a) => ReadPteKeeps(s, t, r, a);
    case ReadRetryStep(r) => ReadRetryKeeps(s, t, r);
  }
}
