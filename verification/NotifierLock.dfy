/** `struct mmu_notifier_subscriptions` and the code that runs under its spinlock.  Each method is
    one locked section; its contract is the effect given in `NotifierState`, so every step of the
    protocol is a step this code takes. */
module NotifierLock {
  import opened Common
  import opened NotifierState

  class MmuSubscriptions {
    var epoch: nat
    var active: nat
    var itree: set<SubId>
    var deferred: seq<SubId>
    var subs: map<SubId, Sub>

    function Value(): Subscriptions
      reads this
    {
      Subscriptions(epoch, active, itree, deferred, subs)
    }

    constructor ()
      ensures Value() == Registered
    {
      epoch, active, itree, deferred, subs := 2, 0, {}, [], map[];
    }

    /** `interval_tree_iter_first`: the overlapping node with the least start. */
    method IterFirst(range: Range) returns (res: Opt<SubId>)
      requires Value().WellFormed()
      ensures res.Some? <==> Value().Matches(range)
      ensures res.Some? ==> res.v in itree && subs[res.v].Overlaps(range)
      ensures res.Some? ==> forall x :: x in itree && subs[x].Overlaps(range) ==> subs[res.v].start <= subs[x].start
    {
      res := None;
      var rest := itree;
      while rest != {}
        invariant rest <= itree
        invariant res.Some? ==> res.v in itree && subs[res.v].Overlaps(range)
        invariant forall x :: x in itree - rest && subs[x].Overlaps(range) ==>
                    res.Some? && subs[res.v].start <= subs[x].start
        decreases rest
      {
        var y :| y in rest;
        rest := rest - {y};
        if subs[y].Overlaps(range) && (res.None? || subs[y].start < subs[res.v].start) {
          res := Some(y);
        }
      }
    }

    method InvStartRange(range: Range) returns (res: Opt<SubId>, curSeq: nat)
      requires Value().WellFormed()
      modifies this
      ensures Value() == InvStart(old(Value()), range) && curSeq == epoch
      ensures res.Some? <==> old(Value()).Matches(range)
      ensures res.Some? ==> res.v in itree && subs[res.v].Overlaps(range) && epoch % 2 == 1
    {
      active := active + 1;
      res := IterFirst(range);
      if res.Some? {
        epoch := SetLowBit(epoch);
      }
      curSeq := epoch;
    }

    /** The counter is decremented first; only the last invalidation of an odd epoch goes on to
        make it even and run the deferred list. */
    method InvEndRange()
      requires Value().WellFormed() && active > 0
      modifies this
      ensures Value() == InvEnd(old(Value()))
    {
      active := active - 1;
      if active != 0 || epoch % 2 == 0 {
        return;
      }
      epoch := epoch + 1;
      while deferred != []
        invariant Value().WellFormed()
        invariant ApplyDeferred(Value().(deferred := []), deferred) == InvEnd(old(Value()))
        decreases |deferred|
      {
        var x := deferred[0];
        ghost var before, items := Value(), deferred;
        if subs[x].rbEmpty {
          itree := itree + {x};
          subs := subs[x := subs[x].(rbEmpty := false)];
        } else {
          itree := itree - {x};
        }
        deferred := deferred[1..];
        assert Value().(deferred := []) == ApplyOne(before.(deferred := []), x);
      }
    }

    /** The locked part of `mmu_interval_read_begin`. */
    method ReadSample(x: SubId) returns (snapSeq: int, colliding: bool)
      requires x in subs
      ensures snapSeq == subs[x].stamp && (colliding <==> subs[x].stamp == epoch)
    {
      snapSeq := subs[x].stamp;
      colliding := snapSeq == epoch;
    }

    /** `__mmu_interval_notifier_insert`; false is -EOVERFLOW. */
    method InsertSub(x: SubId, start: nat, length: nat) returns (ok: bool)
      modifies this
      ensures ok <==> 0 < length && start + length <= 0x1_0000_0000_0000_0000
      ensures Value() == if ok then Insert(old(Value()), x, start, length) else old(Value())
      ensures ok ==> x in subs && forall a :: subs[x].Contains(a) <==> start <= a < start + length
    {
      if length == 0 || start + (length - 1) > ULONG_MAX {
        return false;
      }
      var sub := Sub(start, start + (length - 1), 0, true);
      if active != 0 {
        if epoch % 2 == 1 {
          deferred := [x] + deferred;
        } else {
          epoch := SetLowBit(epoch);
          itree := itree + {x};
          sub := sub.(rbEmpty := false);
        }
        sub := sub.(stamp := epoch);
      } else {
        sub := sub.(stamp := epoch - 1, rbEmpty := false);
        itree := itree + {x};
      }
      subs := subs[x := sub];
      ok := true;
    }

    /** The locked part of `mmu_interval_notifier_remove`; a non-zero result is waited out. */
    method RemoveSub(x: SubId) returns (waitSeq: nat)
      requires x in subs
      modifies this
      ensures Value() == Remove(old(Value()), x) && waitSeq == RemoveWait(old(Value()), x)
    {
      waitSeq := 0;
      if epoch % 2 == 1 {
        if subs[x].rbEmpty {
          deferred := Without(deferred, x);
        } else {
          deferred := [x] + deferred;
          waitSeq := epoch;
        }
      } else {
        itree := itree - {x};
      }
    }
  }
}
