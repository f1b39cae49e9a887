/** The state guarded by the notifier spinlock, and the effect of each locked section on it.

    A `Sub` is one `mmu_interval_notifier`.  `rbEmpty` is the value of `RB_EMPTY_NODE` on its tree
    node: set by an insert, cleared when the node first enters the tree, and left as it is when the
    node is taken out of the tree again.  `epoch` is the `invalidate_seq` of
    the mm and `stamp` that of the subscription; both are unbounded integers. */
module NotifierState {

  type SubId = nat

  const ULONG_MAX: nat := 0xFFFF_FFFF_FFFF_FFFF

  /** A half-open range of virtual addresses, as in `mmu_notifier_range`. */
  datatype Range = Range(start: nat, end: nat) {
    predicate Contains(a: int) { start <= a < end }
  }

  datatype Sub = Sub(start: nat, last: nat, stamp: int, rbEmpty: bool) {
    predicate Contains(a: int) { start <= a <= last }

    /** The test made by the interval tree iterators on [range.start, range.end - 1]. */
    predicate Overlaps(r: Range) { start <= r.end - 1 && r.start <= last }
  }

  datatype Subscriptions = Subscriptions(
    epoch: nat,
    active: nat,
    itree: set<SubId>,
    deferred: seq<SubId>,
    subs: map<SubId, Sub>)
  {
    /** `mn_itree_is_invalidating`. */
    predicate Invalidating() { epoch % 2 == 1 }

    /** Everything the tree or the deferred list mentions has a record. */
    predicate WellFormed() {
      && (forall x :: x in itree ==> x in subs)
      && (forall x :: x in deferred ==> x in subs)
    }

    predicate Matches(r: Range) requires WellFormed() {
      exists x :: x in itree && subs[x].Overlaps(r)
    }
  }

  /** State set up by `__mmu_notifier_register`. */
  const Registered := Subscriptions(2, 0, {}, [], map[])

  function SetLowBit(k: nat): (r: nat)
    ensures r % 2 == 1 && k <= r <= k + 1
  {
    if k % 2 == 0 then k + 1 else k
  }

  /** `mn_itree_inv_start_range`: the new state; the caller's `cur_seq` is its sequence number. */
  function InvStart(n: Subscriptions, r: Range): Subscriptions
    requires n.WellFormed()
  {
    n.(active := n.active + 1, epoch := if n.Matches(r) then SetLowBit(n.epoch) else n.epoch)
  }

  /** One deferred item: an item outside the tree is added, an item in it is removed. */
  function ApplyOne(n: Subscriptions, x: SubId): Subscriptions
    requires x in n.subs
  {
    if n.subs[x].rbEmpty
    then n.(itree := n.itree + {x}, subs := n.subs[x := n.subs[x].(rbEmpty := false)])
    else n.(itree := n.itree - {x})
  }

  /** The deferred-list loop of `mn_itree_inv_end`. */
  function ApplyDeferred(n: Subscriptions, items: seq<SubId>): Subscriptions
    requires forall x :: x in items ==> x in n.subs
    decreases |items|
  {
    if items == [] then n else ApplyDeferred(ApplyOne(n, items[0]), items[1..])
  }

  /** `mn_itree_inv_end`. */
  function InvEnd(n: Subscriptions): Subscriptions
    requires n.WellFormed() && n.active > 0
  {
    if n.active - 1 != 0 || !n.Invalidating() then n.(active := n.active - 1)
    else ApplyDeferred(n.(active := 0, epoch := n.epoch + 1, deferred := []), n.deferred)
  }

  /** The arguments `__mmu_interval_notifier_insert` accepts. */
  predicate Insertable(start: nat, length: nat) {
    length != 0 && start + (length - 1) <= ULONG_MAX
  }

  /** `__mmu_interval_notifier_insert`, for accepted arguments. */
  function Insert(n: Subscriptions, x: SubId, start: nat, length: nat): Subscriptions
    requires Insertable(start, length)
  {
    var blank := Sub(start, start + (length - 1), 0, true);
    if n.active != 0 then
      if n.Invalidating() then
        n.(deferred := [x] + n.deferred, subs := n.subs[x := blank.(stamp := n.epoch)])
      else
        var odd := SetLowBit(n.epoch);
        n.(epoch := odd, itree := n.itree + {x},
           subs := n.subs[x := blank.(stamp := odd, rbEmpty := false)])
    else
      n.(itree := n.itree + {x}, subs := n.subs[x := blank.(stamp := n.epoch - 1, rbEmpty := false)])
  }

  function Without(items: seq<SubId>, x: SubId): (r: seq<SubId>)
    ensures forall y :: y in r <==> y in items && y != x
  {
    if items == [] then []
    else if items[0] == x then Without(items[1..], x)
    else [items[0]] + Without(items[1..], x)
  }

  /** The locked section of `mmu_interval_notifier_remove`. */
  function Remove(n: Subscriptions, x: SubId): Subscriptions
    requires x in n.subs
  {
    if n.Invalidating() then
      if n.subs[x].rbEmpty then n.(deferred := Without(n.deferred, x))
      else n.(deferred := [x] + n.deferred)
    else n.(itree := n.itree - {x})
  }

  /** The sequence number `mmu_interval_notifier_remove` waits out; 0 means it does not wait. */
  function RemoveWait(n: Subscriptions, x: SubId): nat
    requires x in n.subs
  {
    if n.Invalidating() && !n.subs[x].rbEmpty then n.epoch else 0
  }

  /** `mmu_interval_set_seq`. */
  function SetSeq(n: Subscriptions, x: SubId, s: int): Subscriptions
    requires x in n.subs
  {
    n.(subs := n.subs[x := n.subs[x].(stamp := s)])
  }

  /** The deferred loop toggles membership of exactly the listed items, once each. */
  lemma {:induction false} ApplyDeferredEffect(n: Subscriptions, items: seq<SubId>)
    requires forall x :: x in items ==> x in n.subs
    requires forall i, j :: 0 <= i < j < |items| ==> items[i] != items[j]
    ensures var m := ApplyDeferred(n, items);
            && m.epoch == n.epoch && m.active == n.active && m.deferred == n.deferred
            && m.subs.Keys == n.subs.Keys
            && (forall x :: x in n.subs ==> m.subs[x] == if x in items then n.subs[x].(rbEmpty := false) else n.subs[x])
            && (forall x :: x !in items ==> (x in m.itree <==> x in n.itree))
            && (forall x :: x in items ==> (x in m.itree <==> n.subs[x].rbEmpty))
    decreases |items|
  {
    if items != [] {
      var x, rest := items[0], items[1..];
      var n1 := ApplyOne(n, x);
      assert forall i :: 0 <= i < |rest| ==> rest[i] == items[i + 1];
      assert x !in rest;
      assert forall y :: y in items <==> y == x || y in rest;
      ApplyDeferredEffect(n1, rest);
    }
  }
}
