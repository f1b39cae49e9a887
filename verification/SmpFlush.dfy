/** `__flush_smp_call_function_queue`: the in-place walk over a detached queue of call records.

    Records live in a memory shared by all CPUs and are linked by address.  As soon as a record is
    unlocked (or its irq_work has run) its owner may lock it again, change it and link it into
    another queue.  `Others` stands for that: wherever the walk runs a function or has unlocked a
    record, it may rewrite every record that is not still in the walked list. */
module SmpFlush {

  /** The `CSD_TYPE_*` bits; `Async` is zero. */
  datatype Kind = Async | Sync | IrqWork | Ttwu

  /** Where a call record lives: on the stack of a synchronous caller, in a CPU's `csd_data`, in a
      CPU's `cfd_data` for one target, or embedded in some other object. */
  datatype CsdId = Stack(cpu: nat) | PerCpu(cpu: nat) | Cfd(cpu: nat, target: nat) | Embedded(n: nat)

  datatype Ptr = Null | To(id: CsdId)

  /** A `call_single_data_t`; `func` stands for the pair of function and argument. */
  datatype Csd = Csd(next: Ptr, locked: bool, kind: Kind, func: int)

  type Memory = map<CsdId, Csd>

  /** A record as it was when its queue was detached. */
  datatype Entry = Entry(id: CsdId, kind: Kind, func: int)

  datatype Event =
    | Ran(id: CsdId, func: int)
    | Unlocked(id: CsdId)
    | RanIrqWork(id: CsdId, func: int)
    | Woke(id: CsdId, func: int)

  // Specification

  /** What handling one record does in the first, second and third phase.  A SYNC record is
      released after its function has run, an ASYNC record before. */
  function SyncEvents(e: Entry): seq<Event> {
    if e.kind.Sync? then [Ran(e.id, e.func), Unlocked(e.id)] else []
  }

  function AsyncEvents(e: Entry): seq<Event> {
    match e.kind
    case Async => [Unlocked(e.id), Ran(e.id, e.func)]
    case IrqWork => [RanIrqWork(e.id, e.func)]
    case _ => []
  }

  function WakeEvents(e: Entry): seq<Event> {
    if e.kind.Ttwu? then [Woke(e.id, e.func)] else []
  }

  function Flat(es: seq<Entry>, f: Entry -> seq<Event>): seq<Event> {
    if es == [] then [] else Flat(es[..|es| - 1], f) + f(es[|es| - 1])
  }

  /** The whole flush, for entries oldest first. */
  function FlushTrace(es: seq<Entry>): seq<Event> {
    Flat(es, SyncEvents) + Flat(es, AsyncEvents) + Flat(es, WakeEvents)
  }

  /** Entries a pass leaves linked. */
  function Kept(es: seq<Entry>, kinds: set<Kind>): seq<Entry> {
    if es == [] then []
    else
      var e := es[|es| - 1];
      Kept(es[..|es| - 1], kinds) + if e.kind in kinds then [e] else []
  }

  function Reverse<T>(q: seq<T>): (r: seq<T>)
    ensures |r| == |q|
    ensures forall i, j :: 0 <= i < |q| && j == |q| - 1 - i ==> r[i] == q[j]
  {
    if q == [] then [] else Reverse(q[1..]) + [q[0]]
  }

  // Linked lists in memory

  predicate DistinctIds(es: seq<Entry>) {
    forall i, j :: 0 <= i < j < |es| ==> es[i].id != es[j].id
  }

  /** The records of `es` are linked in order, from `first` to the pointer `last`.  (The second
      bound variable keeps the solver from unrolling the list.) */
  ghost predicate Seg(m: Memory, first: Ptr, es: seq<Entry>, last: Ptr) {
    && (forall i :: 0 <= i < |es| ==> es[i].id in m)
    && (forall i, j :: 0 <= i < j < |es| && j == i + 1 ==> m[es[i].id].next == To(es[j].id))
    && (if es == [] then first == last else first == To(es[0].id) && m[es[|es| - 1].id].next == last)
  }

  /** The record still holds what it held when the queue was detached. */
  predicate Holds(m: Memory, e: Entry) {
    e.id in m && m[e.id].kind == e.kind && m[e.id].func == e.func
    && (e.kind.Sync? || e.kind.Async? ==> m[e.id].locked)
  }

  predicate Intact(m: Memory, es: seq<Entry>) {
    forall i :: 0 <= i < |es| ==> Holds(m, es[i])
  }

  /** Memories that differ at most on `ids`. */
  predicate SameOutside(m: Memory, m': Memory, ids: set<CsdId>) {
    m.Keys == m'.Keys && forall c :: c in m && c !in ids ==> m[c] == m'[c]
  }

  predicate Avoids(es: seq<Entry>, ids: set<CsdId>) {
    forall i :: 0 <= i < |es| ==> es[i].id !in ids
  }

  ghost function Listed(es: seq<Entry>): set<CsdId> {
    if es == [] then {} else Listed(es[1..]) + {es[0].id}
  }

  /** The records outside the list. */
  lemma {:induction false} Foreign(m: Memory, es: seq<Entry>) returns (r: set<CsdId>)
    ensures r == m.Keys - Listed(es) && Avoids(es, r)
  {
    r := m.Keys - Listed(es);
    if es != [] {
      var q := Foreign(m, es[1..]);
      forall i | 0 <= i < |es| ensures es[i].id !in r {
        assert i > 0 ==> es[i] == es[1..][i - 1];
      }
    }
  }

  lemma SegFrame(m: Memory, m': Memory, ids: set<CsdId>, first: Ptr, es: seq<Entry>, last: Ptr)
    requires Seg(m, first, es, last) && SameOutside(m, m', ids) && Avoids(es, ids)
    ensures Seg(m', first, es, last)
  {
  }

  lemma IntactFrame(m: Memory, m': Memory, ids: set<CsdId>, es: seq<Entry>)
    requires Intact(m, es) && SameOutside(m, m', ids) && Avoids(es, ids)
    ensures Intact(m', es)
  {
  }

  /** Redirecting the last pointer of a segment. */
  lemma SegRedirect(m: Memory, first: Ptr, es: seq<Entry>, last: Ptr, p: Ptr)
    requires es != [] && DistinctIds(es) && Seg(m, first, es, last)
    ensures var k := es[|es| - 1].id; Seg(m[k := m[k].(next := p)], first, es, p)
  {
  }

  lemma SegSnoc(m: Memory, first: Ptr, es: seq<Entry>, e: Entry, last: Ptr)
    requires Seg(m, first, es, To(e.id)) && e.id in m && m[e.id].next == last
    ensures Seg(m, first, es + [e], last)
  {
    var r := es + [e];
    forall i, j | 0 <= i < j < |r| && j == i + 1 ensures m[r[i].id].next == To(r[j].id) {
    }
  }

  // One pass

  /** A pass over `es` that keeps `kinds` has handled i records: the kept ones run from `entry`
      through `prev` to `csd`, the others run from `csd` to the end; none of these is released. */
  ghost predicate Passed(m: Memory, es: seq<Entry>, kinds: set<Kind>, i: nat, entry: Ptr, prev: Ptr, csd: Ptr, released: set<CsdId>)
    requires i <= |es|
  {
    var kept, rest := Kept(es[..i], kinds), es[i..];
    && Seg(m, csd, rest, Null) && Intact(m, rest) && Avoids(rest, released)
    && Seg(m, entry, kept, csd) && Intact(m, kept) && Avoids(kept, released)
    && (if kept == [] then prev == Null else prev == To(kept[|kept| - 1].id))
  }

  lemma {:induction false} KeptFrom(es: seq<Entry>, kinds: set<Kind>)
    ensures forall e :: e in Kept(es, kinds) ==> e in es && e.kind in kinds
    ensures DistinctIds(es) ==> DistinctIds(Kept(es, kinds))
  {
    if es != [] {
      var pre := es[..|es| - 1];
      KeptFrom(pre, kinds);
      if DistinctIds(es) {
        forall e | e in pre ensures e.id != es[|es| - 1].id {
          var k :| 0 <= k < |pre| && es[k] == e;
        }
      }
    }
  }

  /** One record more: what a pass keeps, and that no kept or later record is this one. */
  lemma PassStep(es: seq<Entry>, i: nat, kinds: set<Kind>)
    requires DistinctIds(es) && i < |es|
    ensures var kept, e := Kept(es[..i], kinds), es[i];
            && es[i..] == [e] + es[i + 1..]
            && Kept(es[..i + 1], kinds) == (if e.kind in kinds then kept + [e] else kept)
            && DistinctIds(kept) && Avoids(kept, {e.id}) && Avoids(es[i + 1..], {e.id})
  {
    assert es[..i + 1][..i] == es[..i];
    KeptFrom(es[..i], kinds);
    KeptAvoids(es, i, kinds, es[i].id);
  }

  lemma KeptAvoids(es: seq<Entry>, i: nat, kinds: set<Kind>, id: CsdId)
    requires i <= |es| && forall k :: 0 <= k < i ==> es[k].id != id
    ensures Avoids(Kept(es[..i], kinds), {id})
  {
    var kept := Kept(es[..i], kinds);
    KeptFrom(es[..i], kinds);
    forall a | 0 <= a < |kept| ensures kept[a].id != id {
      assert kept[a] in kept;
      var k :| 0 <= k < i && es[k] == kept[a];
    }
  }

  lemma SegTail(m: Memory, first: Ptr, e: Entry, es: seq<Entry>, last: Ptr)
    requires Seg(m, first, [e] + es, last)
    ensures first == To(e.id) && e.id in m && Seg(m, m[e.id].next, es, last)
  {
    var q := [e] + es;
    assert q[0] == e;
    assert forall i :: 0 <= i < |es| ==> q[i + 1] == es[i];
    forall i, j | 0 <= i < j < |es| && j == i + 1 ensures m[es[i].id].next == To(es[j].id) {
      assert q[i + 1] == es[i] && q[j + 1] == es[j];
    }
    if es != [] {
      assert q[1] == es[0];
    }
  }

  lemma KeepOne(m: Memory, es: seq<Entry>, kinds: set<Kind>, i: nat, entry: Ptr, prev: Ptr, csd: Ptr, released: set<CsdId>)
    requires DistinctIds(es) && i < |es| && es[i].kind in kinds
    requires Passed(m, es, kinds, i, entry, prev, csd, released)
    ensures csd == To(es[i].id) && es[i].id in m
    ensures Passed(m, es, kinds, i + 1, entry, csd, m[es[i].id].next, released)
  {
    PassStep(es, i, kinds);
    var kept, e := Kept(es[..i], kinds), es[i];
    SegTail(m, csd, e, es[i + 1..], Null);
    SegSnoc(m, entry, kept, e, m[e.id].next);
    assert ([e] + es[i + 1..])[0] == e;
  }

  /** `prev->next = csd_next`, or `entry = csd_next` when nothing is kept yet. */
  function Bypass(m: Memory, prev: Ptr, next: Ptr): Memory {
    if prev.To? && prev.id in m then m[prev.id := m[prev.id].(next := next)] else m
  }

  /** After the unlink both halves of the list are in place without the record. */
  lemma BypassOne(m: Memory, es: seq<Entry>, kinds: set<Kind>, i: nat, entry: Ptr, prev: Ptr, csd: Ptr,
                  released: set<CsdId>)
    requires DistinctIds(es) && i < |es| && es[i].kind !in kinds && es[i].id in m
    requires Passed(m, es, kinds, i, entry, prev, csd, released)
    ensures var kept, rest, next := Kept(es[..i], kinds), es[i + 1..], m[es[i].id].next;
            var b := Bypass(m, prev, next);
            && Seg(b, if prev.To? then entry else next, kept, next) && Intact(b, kept)
            && Seg(b, next, rest, Null) && Intact(b, rest) && Avoids(rest, released)
  {
    PassStep(es, i, kinds);
    var kept, e, rest := Kept(es[..i], kinds), es[i], es[i + 1..];
    var next := m[e.id].next;
    var b := Bypass(m, prev, next);
    SegTail(m, csd, e, rest, Null);
    assert forall k :: 0 <= k < |rest| ==> rest[k] == es[i..][k + 1];
    if kept != [] {
      SegRedirect(m, entry, kept, csd, next);
      KeptVsRest(es, i, kinds);
      SegFrame(m, b, {prev.id}, next, rest, Null);
      IntactFrame(m, b, {prev.id}, rest);
    }
  }

  /** Then the record itself may be released and reused. */
  lemma DropOne(m: Memory, m': Memory, es: seq<Entry>, kinds: set<Kind>, i: nat, entry: Ptr, prev: Ptr, csd: Ptr,
                released: set<CsdId>)
    requires DistinctIds(es) && i < |es| && es[i].kind !in kinds
    requires Passed(m, es, kinds, i, entry, prev, csd, released)
    requires es[i].id in m && SameOutside(Bypass(m, prev, m[es[i].id].next), m', released + {es[i].id})
    ensures Passed(m', es, kinds, i + 1, if prev.To? then entry else m[es[i].id].next, prev, m[es[i].id].next,
                   released + {es[i].id})
  {
    BypassOne(m, es, kinds, i, entry, prev, csd, released);
    PassStep(es, i, kinds);
    var kept, rest, next := Kept(es[..i], kinds), es[i + 1..], m[es[i].id].next;
    var b, gone := Bypass(m, prev, next), released + {es[i].id};
    SegFrame(b, m', gone, if prev.To? then entry else next, kept, next);
    IntactFrame(b, m', gone, kept);
    SegFrame(b, m', gone, next, rest, Null);
    IntactFrame(b, m', gone, rest);
  }

  lemma KeptVsRest(es: seq<Entry>, i: nat, kinds: set<Kind>)
    requires DistinctIds(es) && i < |es|
    ensures var kept := Kept(es[..i], kinds);
            kept != [] ==> Avoids(es[i + 1..], {kept[|kept| - 1].id})
  {
    var kept := Kept(es[..i], kinds);
    KeptFrom(es[..i], kinds);
    if kept != [] {
      assert kept[|kept| - 1] in kept;
      var k :| 0 <= k < i && es[k] == kept[|kept| - 1];
    }
  }

  const NonSync: set<Kind> := {Async, IrqWork, Ttwu}

  // The code

  class Cpu {
    var mem: Memory
    var head: Ptr          // this CPU's call_single_queue, newest first
    var log: seq<Event>

    /** Other CPUs use records outside the walked list, and may queue them here. */
    method Others(ghost released: set<CsdId>)
      modifies this`mem, this`head
      ensures SameOutside(old(mem), mem, released)
    {
    }

    method DoFunc(id: CsdId, func: int)
      modifies this`log
      ensures log == old(log) + [Ran(id, func)]
    {
      log := log + [Ran(id, func)];
    }

    /** `csd_unlock` clears the lock and the type together. */
    method Unlock(id: CsdId)
      requires id in mem && mem[id].locked
      modifies this`mem, this`log
      ensures mem == old(mem)[id := old(mem)[id].(locked := false, kind := Async)]
      ensures log == old(log) + [Unlocked(id)]
    {
      mem := mem[id := mem[id].(locked := false, kind := Async)];
      log := log + [Unlocked(id)];
    }

    /** `llist_reverse_order`; `q` lists the records newest first. */
    method ReverseOrder(first: Ptr, ghost q: seq<Entry>) returns (newFirst: Ptr)
      requires DistinctIds(q) && Seg(mem, first, q, Null) && Intact(mem, q)
      modifies this`mem
      ensures Seg(mem, newFirst, Reverse(q), Null) && Intact(mem, q) && mem.Keys == old(mem.Keys)
    {
      newFirst := Null;
      var rest := first;
      ghost var n := 0;
      while rest != Null
        invariant 0 <= n <= |q| && Intact(mem, q) && mem.Keys == old(mem.Keys)
        invariant if n < |q| then rest == To(q[n].id) && mem[q[|q| - 1].id].next == Null else rest == Null
        invariant forall i, j :: n <= i < j < |q| && j == i + 1 ==> mem[q[i].id].next == To(q[j].id)
        invariant if n == 0 then newFirst == Null else newFirst == To(q[n - 1].id) && mem[q[0].id].next == Null
        invariant forall i, j :: 0 <= i < j < n && j == i + 1 ==> mem[q[j].id].next == To(q[i].id)
        decreases |q| - n
      {
        var tmp := rest;
        rest := mem[tmp.id].next;
        assert n + 1 < |q| ==> rest == To(q[n + 1].id);
        mem := mem[tmp.id := mem[tmp.id].(next := newFirst)];
        newFirst := tmp;
        n := n + 1;
      }
      ghost var r, m := Reverse(q), |q|;
      forall i | 0 <= i < m ensures r[i] == q[m - 1 - i] && Holds(mem, r[i]) {
      }
      forall i, j | 0 <= i < j < m && j == i + 1 ensures mem[r[i].id].next == To(r[j].id) {
        assert r[i] == q[m - 1 - i] && r[j] == q[m - 1 - j];
      }
    }

    /** One record of the first pass: a SYNC record is unlinked and run, another one stays. */
    method SyncOne(entry: Ptr, prev: Ptr, csd: Ptr, ghost es: seq<Entry>, ghost i: nat, ghost released: set<CsdId>)
      returns (entry': Ptr, prev': Ptr, csd': Ptr, ghost released': set<CsdId>)
      requires DistinctIds(es) && i <= |es| && Passed(mem, es, NonSync, i, entry, prev, csd, released) && csd != Null
      modifies this
      ensures i < |es| && Passed(mem, es, NonSync, i + 1, entry', prev', csd', released')
      ensures log == old(log) + SyncEvents(es[i])
    {
      ghost var m := mem;
      PassHead(m, es, NonSync, i, entry, prev, csd, released);
      var id := csd.id;
      entry', prev', csd', released' := entry, csd, mem[id].next, released;
      if mem[id].kind == Sync {
        if prev.To? {
          mem := mem[prev.id := mem[prev.id].(next := csd')];
        } else {
          entry' := csd';
        }
        RunSync(id, released);
        DropOne(m, mem, es, NonSync, i, entry, prev, csd, released);
        prev', released' := prev, released + {id};
      } else {
        KeepOne(m, es, NonSync, i, entry, prev, csd, released);
      }
    }

    /** First pass: run the SYNC records and unlink them. */
    method SyncPass(first: Ptr, ghost es: seq<Entry>, ghost foreign: set<CsdId>) returns (entry: Ptr)
      requires DistinctIds(es) && Seg(mem, first, es, Null) && Intact(mem, es) && Avoids(es, foreign)
      modifies this
      ensures log == old(log) + Flat(es, SyncEvents)
      ensures Seg(mem, entry, Kept(es, NonSync), Null) && Intact(mem, Kept(es, NonSync))
    {
      entry := first;
      var prev, csd := Null, first;
      ghost var i, released, trace := 0, foreign, [];
      assert es[0..] == es;
      while csd != Null
        invariant i <= |es| && Passed(mem, es, NonSync, i, entry, prev, csd, released)
        invariant trace == Flat(es[..i], SyncEvents) && log == old(log) + trace
        decreases |es| - i
      {
        entry, prev, csd, released := SyncOne(entry, prev, csd, es, i, released);
        FlatStep(es, i, SyncEvents);
        LogStep(old(log), trace, SyncEvents(es[i]));
        trace := trace + SyncEvents(es[i]);
        i := i + 1;
      }
      assert es[..i] == es;
    }

    /** One record of the second pass. */
    method AsyncOne(entry: Ptr, prev: Ptr, csd: Ptr, ghost es: seq<Entry>, ghost i: nat, ghost released: set<CsdId>)
      returns (entry': Ptr, prev': Ptr, csd': Ptr, ghost released': set<CsdId>)
      requires DistinctIds(es) && i <= |es| && Passed(mem, es, {Ttwu}, i, entry, prev, csd, released) && csd != Null
      requires i < |es| ==> !es[i].kind.Sync?
      modifies this
      ensures i < |es| && Passed(mem, es, {Ttwu}, i + 1, entry', prev', csd', released')
      ensures log == old(log) + AsyncEvents(es[i])
    {
      ghost var m := mem;
      PassHead(m, es, {Ttwu}, i, entry, prev, csd, released);
      var id := csd.id;
      var kind := mem[id].kind;
      entry', prev', csd', released' := entry, csd, mem[id].next, released;
      if kind != Ttwu {
        if prev.To? {
          mem := mem[prev.id := mem[prev.id].(next := csd')];
        } else {
          entry' := csd';
        }
        RunAsync(id, kind, released);
        DropOne(m, mem, es, {Ttwu}, i, entry, prev, csd, released);
        prev', released' := prev, released + {id};
      } else {
        KeepOne(m, es, {Ttwu}, i, entry, prev, csd, released);
      }
    }

    /** Second pass: run everything that is neither SYNC nor TTWU, and unlink it. */
    method AsyncPass(first: Ptr, ghost es: seq<Entry>, ghost foreign: set<CsdId>) returns (entry: Ptr)
      requires DistinctIds(es) && Seg(mem, first, es, Null) && Intact(mem, es) && Avoids(es, foreign)
      requires forall i :: 0 <= i < |es| ==> !es[i].kind.Sync?
      modifies this
      ensures log == old(log) + Flat(es, AsyncEvents)
      ensures Seg(mem, entry, Kept(es, {Ttwu}), Null) && Intact(mem, Kept(es, {Ttwu}))
    {
      entry := first;
      var prev, csd := Null, first;
      ghost var i, released, trace := 0, foreign, [];
      assert es[0..] == es;
      while csd != Null
        invariant i <= |es| && Passed(mem, es, {Ttwu}, i, entry, prev, csd, released)
        invariant trace == Flat(es[..i], AsyncEvents) && log == old(log) + trace
        decreases |es| - i
      {
        entry, prev, csd, released := AsyncOne(entry, prev, csd, es, i, released);
        FlatStep(es, i, AsyncEvents);
        LogStep(old(log), trace, AsyncEvents(es[i]));
        trace := trace + AsyncEvents(es[i]);
        i := i + 1;
      }
      assert es[..i] == es;
    }

    method RunSync(id: CsdId, ghost released: set<CsdId>)
      requires id in mem && mem[id].kind.Sync? && mem[id].locked
      modifies this
      ensures SameOutside(old(mem), mem, released + {id})
      ensures log == old(log) + SyncEvents(Entry(id, Sync, old(mem)[id].func))
    {
      var func := mem[id].func;
      DoFunc(id, func);
      Unlock(id);
      Others(released + {id});
    }

    method RunAsync(id: CsdId, kind: Kind, ghost released: set<CsdId>)
      requires id in mem && mem[id].kind == kind && (kind.Async? ==> mem[id].locked)
      requires kind.Async? || kind.IrqWork?
      modifies this
      ensures SameOutside(old(mem), mem, released + {id})
      ensures log == old(log) + AsyncEvents(Entry(id, kind, old(mem)[id].func))
    {
      if kind == Async {
        var func := mem[id].func;
        Unlock(id);
        Others(released + {id});
        DoFunc(id, func);
      } else {
        log := log + [RanIrqWork(id, mem[id].func)];
        Others(released + {id});
      }
    }

    /** `sched_ttwu_pending`: wakes the tasks on the list it is given. */
    method TtwuPending(first: Ptr, ghost es: seq<Entry>, ghost foreign: set<CsdId>)
      requires DistinctIds(es) && Seg(mem, first, es, Null) && Intact(mem, es) && Avoids(es, foreign)
      requires forall i :: 0 <= i < |es| ==> es[i].kind.Ttwu?
      modifies this
      ensures log == old(log) + Flat(es, WakeEvents)
    {
      var csd := first;
      ghost var i, released, trace := 0, foreign, [];
      assert es[0..] == es;
      while csd != Null
        invariant i <= |es| && Seg(mem, csd, es[i..], Null) && Intact(mem, es[i..]) && Avoids(es[i..], released)
        invariant trace == Flat(es[..i], WakeEvents) && log == old(log) + trace
        decreases |es| - i
      {
        ghost var m, e, rest := mem, es[i], es[i + 1..];
        PassStep(es, i, {});
        SegTail(m, csd, e, rest, Null);
        AvoidsTail(e, rest, released);
        assert e == es[i..][0] && Holds(m, e);
        IntactTail(m, e, rest);
        var id := csd.id;
        var next := mem[id].next;
        log := log + [Woke(id, mem[id].func)];
        Others(released + {id});
        released := released + {id};
        SegFrame(m, mem, released, next, rest, Null);
        IntactFrame(m, mem, released, rest);
        FlatStep(es, i, WakeEvents);
        LogStep(old(log), trace, WakeEvents(e));
        trace := trace + WakeEvents(e);
        csd := next;
        i := i + 1;
      }
      assert es[..i] == es;
    }

    /** The whole flush: detach, reverse, and the three phases.  Every entry is handled as it was
        when the queue was detached, whatever its owner does with it once it is released. */
    method Flush(ghost q: seq<Entry>)
      requires DistinctIds(q) && Seg(mem, head, q, Null) && Intact(mem, q)
      modifies this
      ensures log == old(log) + FlushTrace(Reverse(q))
    {
      ghost var es := Reverse(q);
      ReverseKeeps(q, mem);
      var entry := head;
      head := Null;
      ghost var m := mem;
      ghost var free := Foreign(m, q);
      Others(free);
      SegFrame(m, mem, free, entry, q, Null);
      IntactFrame(m, mem, free, q);
      entry := ReverseOrder(entry, q);
      ReverseKeeps(q, mem);
      free := Foreign(mem, es);
      entry := SyncPass(entry, es, free);
      LateFlush(entry, es);
      LogStep(old(log), Flat(es, SyncEvents), Flat(es, AsyncEvents) + Flat(es, WakeEvents));
      LogStep(Flat(es, SyncEvents), Flat(es, AsyncEvents), Flat(es, WakeEvents));
    }

    /** What follows the first pass. */
    method LateFlush(first: Ptr, ghost es: seq<Entry>)
      requires DistinctIds(es) && Seg(mem, first, Kept(es, NonSync), Null) && Intact(mem, Kept(es, NonSync))
      modifies this
      ensures log == old(log) + (Flat(es, AsyncEvents) + Flat(es, WakeEvents))
    {
      ghost var rest := Kept(es, NonSync);
      ghost var wakes := Kept(rest, {Ttwu});
      KeptKinds(es, NonSync);
      KeptKinds(rest, {Ttwu});
      PhasesCompose(es);
      if first == Null {
        assert rest == [];
        return;
      }
      ghost var free := Foreign(mem, rest);
      var entry := AsyncPass(first, rest, free);
      LogStep(old(log), Flat(es, AsyncEvents), Flat(es, WakeEvents));
      if entry != Null {
        free := Foreign(mem, wakes);
        TtwuPending(entry, wakes, free);
      }
    }
  }

  lemma IntactTail(m: Memory, e: Entry, es: seq<Entry>)
    requires Intact(m, [e] + es)
    ensures Holds(m, e) && Intact(m, es)
  {
    assert ([e] + es)[0] == e && forall k :: 0 <= k < |es| ==> es[k] == ([e] + es)[k + 1];
  }

  lemma ReverseKeeps(q: seq<Entry>, m: Memory)
    requires DistinctIds(q) && Intact(m, q)
    ensures DistinctIds(Reverse(q)) && Intact(m, Reverse(q))
  {
    ReverseDistinct(q);
    var es := Reverse(q);
    forall i | 0 <= i < |es| ensures Holds(m, es[i]) {
      assert es[i] == q[|q| - 1 - i];
    }
  }

  lemma KeptKinds(es: seq<Entry>, kinds: set<Kind>)
    requires DistinctIds(es)
    ensures DistinctIds(Kept(es, kinds))
    ensures forall i :: 0 <= i < |Kept(es, kinds)| ==> Kept(es, kinds)[i].kind in kinds
  {
    KeptFrom(es, kinds);
    var r := Kept(es, kinds);
    forall i | 0 <= i < |r| ensures r[i].kind in kinds {
      assert r[i] in r;
    }
  }

  lemma AvoidsTail(e: Entry, es: seq<Entry>, ids: set<CsdId>)
    requires Avoids([e] + es, ids) && Avoids(es, {e.id})
    ensures Avoids(es, ids + {e.id})
  {
    assert forall k :: 0 <= k < |es| ==> es[k] == ([e] + es)[k + 1];
  }

  lemma ReverseDistinct(q: seq<Entry>)
    requires DistinctIds(q)
    ensures DistinctIds(Reverse(q))
  {
    var r, n := Reverse(q), |q|;
    forall i, j | 0 <= i < j < n ensures r[i].id != r[j].id {
      assert r[i] == q[n - 1 - i] && r[j] == q[n - 1 - j];
    }
  }

  lemma LogStep(a: seq<Event>, b: seq<Event>, c: seq<Event>)
    ensures a + b + c == a + (b + c)
  {
  }

  lemma FlatStep(es: seq<Entry>, i: nat, f: Entry -> seq<Event>)
    requires i < |es|
    ensures Flat(es[..i + 1], f) == Flat(es[..i], f) + f(es[i])
  {
    assert es[..i + 1][..i] == es[..i];
  }

  /** Running a phase on what an earlier phase kept is running it on everything. */
  lemma {:induction false} FlatKept(es: seq<Entry>, kinds: set<Kind>, f: Entry -> seq<Event>)
    requires forall e :: e in es && e.kind !in kinds ==> f(e) == []
    ensures Flat(Kept(es, kinds), f) == Flat(es, f)
  {
    if es != [] {
      var pre, e := es[..|es| - 1], es[|es| - 1];
      assert forall k :: k in pre ==> k in es;
      FlatKept(pre, kinds, f);
      var r := Kept(pre, kinds);
      if e.kind in kinds {
        assert (r + [e])[..|r|] == r;
        assert Kept(es, kinds) == r + [e];
      } else {
        assert Kept(es, kinds) == r + [] == r;
        assert Flat(es, f) == Flat(pre, f) + [] == Flat(pre, f);
      }
    }
  }

  lemma PhasesCompose(es: seq<Entry>)
    ensures Flat(Kept(es, NonSync), AsyncEvents) == Flat(es, AsyncEvents)
    ensures Flat(Kept(Kept(es, NonSync), {Ttwu}), WakeEvents) == Flat(es, WakeEvents)
  {
    FlatKept(es, NonSync, AsyncEvents);
    FlatKept(es, NonSync, WakeEvents);
    FlatKept(Kept(es, NonSync), {Ttwu}, WakeEvents);
  }

  lemma PassHead(m: Memory, es: seq<Entry>, kinds: set<Kind>, i: nat, entry: Ptr, prev: Ptr, csd: Ptr, released: set<CsdId>)
    requires DistinctIds(es) && i <= |es| && Passed(m, es, kinds, i, entry, prev, csd, released) && csd != Null
    ensures i < |es| && csd == To(es[i].id) && Holds(m, es[i])
    ensures prev.To? ==> prev.id in m && prev.id != es[i].id && m[prev.id].next == csd
    ensures prev == Null ==> entry == csd
  {
    var rest := es[i..];
    assert rest != [] && rest[0] == es[i];
    PassStep(es, i, kinds);
  }

  // What a flush amounts to

  /** The records a trace executes, in order. */
  function Executed(tr: seq<Event>): seq<CsdId> {
    if tr == [] then []
    else
      var last := tr[|tr| - 1];
      Executed(tr[..|tr| - 1]) + if last.Unlocked? then [] else [last.id]
  }

  lemma {:induction false} ExecutedConcat(a: seq<Event>, b: seq<Event>)
    ensures Executed(a + b) == Executed(a) + Executed(b)
    decreases |b|
  {
    if b == [] {
      assert a + b == a;
    } else {
      assert (a + b)[..|a + b| - 1] == a + b[..|b| - 1];
      ExecutedConcat(a, b[..|b| - 1]);
    }
  }

  function Ids(es: seq<Entry>): seq<CsdId> {
    seq(|es|, i requires 0 <= i < |es| => es[i].id)
  }

  lemma KeptIds(es: seq<Entry>, kinds: set<Kind>)
    requires es != []
    ensures var pre, e := es[..|es| - 1], es[|es| - 1];
            Ids(Kept(es, kinds)) == Ids(Kept(pre, kinds)) + (if e.kind in kinds then [e.id] else [])
  {
  }

  lemma {:induction false} ExecutedFlat(es: seq<Entry>, kinds: set<Kind>, f: Entry -> seq<Event>)
    requires forall e :: e in es ==> Executed(f(e)) == if e.kind in kinds then [e.id] else []
    ensures Executed(Flat(es, f)) == Ids(Kept(es, kinds))
  {
    if es != [] {
      var pre, e := es[..|es| - 1], es[|es| - 1];
      assert e in es && forall k :: k in pre ==> k in es;
      calc {
        Executed(Flat(es, f));
        Executed(Flat(pre, f) + f(e));
        { ExecutedConcat(Flat(pre, f), f(e)); }
        Executed(Flat(pre, f)) + Executed(f(e));
        { ExecutedFlat(pre, kinds, f); }
        Ids(Kept(pre, kinds)) + (if e.kind in kinds then [e.id] else []);
        { KeptIds(es, kinds); }
        Ids(Kept(es, kinds));
      }
    }
  }

  /** A flush executes the SYNC records oldest first, then the ASYNC and IRQ_WORK records oldest
      first, then the TTWU records oldest first. */
  lemma FlushOrder(es: seq<Entry>)
    ensures Executed(FlushTrace(es)) == Ids(Kept(es, {Sync})) + Ids(Kept(es, {Async, IrqWork})) + Ids(Kept(es, {Ttwu}))
  {
    SyncOrder(es);
    AsyncOrder(es);
    WakeOrder(es);
    ExecutedConcat(Flat(es, SyncEvents), Flat(es, AsyncEvents));
    ExecutedConcat(Flat(es, SyncEvents) + Flat(es, AsyncEvents), Flat(es, WakeEvents));
  }

  lemma SyncOrder(es: seq<Entry>)
    ensures Executed(Flat(es, SyncEvents)) == Ids(Kept(es, {Sync}))
  {
    forall e | e in es ensures Executed(SyncEvents(e)) == if e.kind in {Sync} then [e.id] else [] {
      ExecutedPair(e);
    }
    ExecutedFlat(es, {Sync}, SyncEvents);
  }

  lemma AsyncOrder(es: seq<Entry>)
    ensures Executed(Flat(es, AsyncEvents)) == Ids(Kept(es, {Async, IrqWork}))
  {
    forall e | e in es ensures Executed(AsyncEvents(e)) == if e.kind in {Async, IrqWork} then [e.id] else [] {
      ExecutedPair(e);
    }
    ExecutedFlat(es, {Async, IrqWork}, AsyncEvents);
  }

  lemma WakeOrder(es: seq<Entry>)
    ensures Executed(Flat(es, WakeEvents)) == Ids(Kept(es, {Ttwu}))
  {
    forall e | e in es ensures Executed(WakeEvents(e)) == if e.kind in {Ttwu} then [e.id] else [] {
      ExecutedPair(e);
    }
    ExecutedFlat(es, {Ttwu}, WakeEvents);
  }

  lemma ExecutedPair(e: Entry)
    ensures Executed([Ran(e.id, e.func), Unlocked(e.id)]) == [e.id]
    ensures Executed([Unlocked(e.id), Ran(e.id, e.func)]) == [e.id]
    ensures Executed([RanIrqWork(e.id, e.func)]) == [e.id] && Executed([Woke(e.id, e.func)]) == [e.id]
  {
    assert [Ran(e.id, e.func), Unlocked(e.id)][..1] == [Ran(e.id, e.func)];
    assert Executed([Ran(e.id, e.func)]) == Executed([]) + [e.id];
    assert [Unlocked(e.id), Ran(e.id, e.func)][..1] == [Unlocked(e.id)];
  }

  lemma {:induction false} FlatAt(es: seq<Entry>, f: Entry -> seq<Event>, i: nat, k: nat)
    requires i < |es| && k < |f(es[i])|
    ensures var p := |Flat(es[..i], f)| + k; p < |Flat(es, f)| && Flat(es, f)[p] == f(es[i])[k]
  {
    var pre := es[..|es| - 1];
    if i < |es| - 1 {
      FlatAt(pre, f, i, k);
      assert pre[..i] == es[..i];
    }
  }

  /** At some point of the trace one event is followed by the other. */
  ghost predicate Follows(tr: seq<Event>, a: Event, b: Event) {
    exists p :: 0 <= p < |tr| - 1 && tr[p] == a && tr[p + 1] == b
  }

  /** The record of a waiting call is released right after its function has run, that of one that does
      not wait right before, so that its owner may use it again while the function runs. */
  lemma FlushReleases(es: seq<Entry>, i: nat)
    requires i < |es|
    ensures var tr, e := FlushTrace(es), es[i];
            match e.kind
            case Sync => Follows(tr, Ran(e.id, e.func), Unlocked(e.id))
            case Async => Follows(tr, Unlocked(e.id), Ran(e.id, e.func))
            case IrqWork => RanIrqWork(e.id, e.func) in tr
            case Ttwu => Woke(e.id, e.func) in tr
  {
    var e, tr := es[i], FlushTrace(es);
    var a, b, c := Flat(es, SyncEvents), Flat(es, AsyncEvents), Flat(es, WakeEvents);
    match e.kind
    case Sync =>
      FlatAt(es, SyncEvents, i, 0);
      FlatAt(es, SyncEvents, i, 1);
      var p := |Flat(es[..i], SyncEvents)|;
      assert tr[p] == a[p] && tr[p + 1] == a[p + 1];
    case Async =>
      FlatAt(es, AsyncEvents, i, 0);
      FlatAt(es, AsyncEvents, i, 1);
      var p := |Flat(es[..i], AsyncEvents)|;
      assert tr[|a| + p] == b[p] && tr[|a| + p + 1] == b[p + 1];
    case IrqWork =>
      FlatAt(es, AsyncEvents, i, 0);
      var p := |Flat(es[..i], AsyncEvents)|;
      assert tr[|a| + p] == b[p];
    case Ttwu =>
      FlatAt(es, WakeEvents, i, 0);
      var p := |Flat(es[..i], WakeEvents)|;
      assert tr[|a| + |b| + p] == c[p];
  }

  /** Nothing is lost and nothing runs twice. */
  lemma FlushExactlyOnce(es: seq<Entry>)
    ensures multiset(Executed(FlushTrace(es))) == multiset(Ids(es))
  {
    FlushOrder(es);
    KeptPartition(es);
  }

  function Count(es: seq<Entry>, kinds: set<Kind>): multiset<CsdId> {
    multiset(Ids(Kept(es, kinds)))
  }

  lemma {:induction false} KeptPartition(es: seq<Entry>)
    ensures Count(es, {Sync}) + Count(es, {Async, IrqWork}) + Count(es, {Ttwu}) == multiset(Ids(es))
  {
    if es != [] {
      var pre, e := es[..|es| - 1], es[|es| - 1];
      KeptPartition(pre);
      assert Ids(es) == Ids(pre) + [e.id];
      CountStep(es, {Sync});
      CountStep(es, {Async, IrqWork});
      CountStep(es, {Ttwu});
      Regroup(Count(pre, {Sync}), Count(pre, {Async, IrqWork}), Count(pre, {Ttwu}), e);
    }
  }

  lemma Regroup(a: multiset<CsdId>, b: multiset<CsdId>, c: multiset<CsdId>, e: Entry)
    ensures (a + (if e.kind in {Sync} then multiset{e.id} else multiset{}))
            + (b + (if e.kind in {Async, IrqWork} then multiset{e.id} else multiset{}))
            + (c + (if e.kind in {Ttwu} then multiset{e.id} else multiset{})) == a + b + c + multiset{e.id}
  {
    assert e.kind.Sync? || e.kind.Async? || e.kind.IrqWork? || e.kind.Ttwu?;
  }

  lemma CountStep(es: seq<Entry>, kinds: set<Kind>)
    requires es != []
    ensures var pre, e := es[..|es| - 1], es[|es| - 1];
            Count(es, kinds) == Count(pre, kinds) + (if e.kind in kinds then multiset{e.id} else multiset{})
  {
    KeptIds(es, kinds);
  }
}
