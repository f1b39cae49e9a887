/** The inductive invariant of the collision-retry protocol.

    It is a conjunction of pointwise conditions: on the notifier alone, on one client, on one
    invalidation, on one invalidation and one client, and on one reader. */
module NotifierInvariant {
  import opened NotifierState
  import opened NotifierProtocol

  ghost predicate Distinct(q: seq<SubId>) {
    forall i, j :: 0 <= i < j < |q| ==> q[i] != q[j]
  }

  predicate Odd(k: int) { k % 2 == 1 }

  /** `active_invalidate_ranges` counts the open invalidations; an odd epoch has at least one. */
  ghost predicate EpochInv(s: State) {
    && s.n.WellFormed()
    && s.n.active == |ActiveWriters(s)|
    && (Odd(s.n.epoch) ==> s.n.active > 0)
    && (s.n.deferred != [] ==> Odd(s.n.epoch))
    && Distinct(s.n.deferred)
    && s.n.epoch >= 2
  }

  /** Where a subscription sits, as a function of its phase. */
  ghost predicate Placed(epoch: nat, phase: Phase, rbEmpty: bool, inTree: bool, inDeferred: bool) {
    match phase
    case Live => (rbEmpty <==> inDeferred) && (rbEmpty <==> !inTree)
    case Removing(q) =>
      && !rbEmpty && q <= epoch && Odd(q)
      && (inTree <==> q == epoch) && (inDeferred <==> q == epoch)
  }

  ghost predicate StampOk(epoch: nat, sub: Sub) {
    && Odd(sub.stamp) && sub.stamp <= epoch
    && (sub.rbEmpty ==> sub.stamp == epoch)
  }

  /** The shadow entries lie inside the subscription and repeat the primary entries. */
  ghost predicate Coherent(sub: Sub, shadow: map<int, int>, pte: map<int, int>) {
    forall a :: a in shadow ==> sub.Contains(a) && shadow[a] == if a in pte then pte[a] else 0
  }

  ghost predicate ClientOk(n: Subscriptions, x: SubId, c: Client, pte: map<int, int>) {
    && x in n.subs
    && Placed(n.epoch, c.phase, n.subs[x].rbEmpty, x in n.itree, x in n.deferred)
    && StampOk(n.epoch, n.subs[x])
    && (c.phase.Live? ==> Coherent(n.subs[x], c.shadow, pte))
    && (c.phase.Live? && n.subs[x].rbEmpty ==> c.shadow == map[])
  }

  ghost predicate ClientInv(s: State) {
    && (forall x :: x in s.clients ==> ClientOk(s.n, x, s.clients[x], s.pte))
    && (forall x :: x in s.n.itree ==> x in s.clients)
    && (forall x :: x in s.n.deferred ==> x in s.clients)
  }

  ghost predicate VisitedOk(n: Subscriptions, range: Range, visited: set<SubId>, finishes: seq<SubId>) {
    && (forall x :: x in visited ==> x in n.itree && x in n.subs && n.subs[x].Overlaps(range))
    && (forall x :: x in finishes ==> x in visited)
    && Distinct(finishes)
  }

  /** A walk stays inside the tree it started on; a complete one has seen all of its range. */
  ghost predicate WalkOk(n: Subscriptions, W: Writer) {
    match W
    case Quiet => true
    case Walking(range, _, curSeq, node, stage, visited, finishes) =>
      && curSeq == n.epoch && Odd(curSeq)
      && node in n.itree && node in n.subs && n.subs[node].Overlaps(range)
      && node !in visited
      && VisitedOk(n, range, visited, finishes)
    case Finishing(range, curSeq, failed, visited, finishes) =>
      && curSeq == n.epoch && Odd(curSeq)
      && VisitedOk(n, range, visited, finishes)
      && (!failed ==> forall x :: x in n.itree && x in n.subs && n.subs[x].Overlaps(range) ==> x in visited)
    case Window(range, curSeq, matched) =>
      matched ==> curSeq == n.epoch && Odd(curSeq)
  }

  ghost predicate WalkInv(s: State) {
    forall w :: w in s.writers ==> WalkOk(s.n, s.writers[w])
  }

  ghost predicate Outside(shadow: map<int, int>, range: Range) {
    forall a :: a in shadow ==> !range.Contains(a)
  }

  /** What one invalidation guarantees about one client.  A successful visit leaves the epoch on
      the subscription; after its teardown, and during the window, no shadow entry is in range. */
  ghost predicate PairOk(epoch: nat, W: Writer, x: SubId, c: Client, sub: Sub) {
    match W
    case Quiet => true
    case Walking(range, _, _, node, stage, visited, finishes) =>
      && (x in visited ==> sub.stamp == epoch)
      && (x == node && stage.Locked? ==> sub.stamp == epoch)
      && (c.phase.Live? && ((x in visited && x !in finishes) || (x == node && stage == Locked(false))) ==>
            Outside(c.shadow, range))
    case Finishing(range, _, failed, visited, finishes) =>
      !failed ==>
        && (x in visited ==> sub.stamp == epoch)
        && (c.phase.Live? && x in visited && x !in finishes ==> Outside(c.shadow, range))
    case Window(range, _, _) =>
      c.phase.Live? ==>
        && (sub.Overlaps(range) ==> Odd(epoch) && sub.stamp == epoch)
        && Outside(c.shadow, range)
  }

  ghost predicate PairInv(s: State) {
    forall w, x :: w in s.writers && x in s.clients && x in s.n.subs ==>
      PairOk(s.n.epoch, s.writers[w], x, s.clients[x], s.n.subs[x])
  }

  /** A reader whose value still matches sampled it in an epoch that is over, and what it has
      collected since is current. */
  ghost predicate ReaderOk(epoch: nat, R: Reader, c: Client, sub: Sub, pte: map<int, int>) {
    c.phase.Live? ==>
      match R
      case Resting => true
      case Sampled(_, q, colliding) =>
        q <= sub.stamp && (!colliding && sub.stamp == q ==> q < epoch)
      case Reading(_, q, snap) =>
        q <= sub.stamp && (sub.stamp == q ==> q < epoch && Coherent(sub, snap, pte))
  }

  ghost predicate ReaderInv(s: State) {
    forall r :: r in s.readers && !s.readers[r].Resting?
                && s.readers[r].sub in s.clients && s.readers[r].sub in s.n.subs ==>
      ReaderOk(s.n.epoch, s.readers[r], s.clients[s.readers[r].sub], s.n.subs[s.readers[r].sub], s.pte)
  }

  ghost predicate Inv(s: State) {
    EpochInv(s) && ClientInv(s) && WalkInv(s) && PairInv(s) && ReaderInv(s)
  }
}
