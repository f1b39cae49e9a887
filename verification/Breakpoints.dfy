/** Software breakpoints of bhyve's debug server: an instruction byte of guest memory is replaced by a
    trap and kept as a shadow, and breakpoint exits are on while there are any. */
module Breakpoints {
  import opened Common

  type Addr = nat

  const TRAP: Byte := 0xcc
  const BP_SIZE: int := 1

  datatype Bp = Bp(gpa: Addr, shadow: Byte)

  /** Guest RAM, breakpoints, running vCPUs, and the vCPUs with breakpoint exits enabled. */
  datatype State = State(mem: map<Addr, Byte>, bps: seq<Bp>, active: set<int>, caps: set<int>)

  /** What translating the debugger's address gives. */
  datatype Lookup = Unreadable | Unmapped | At(gpa: Addr)

  datatype Cmd =
    | Break(where: Lookup, kind: int, insert: bool)
    | AddCpu(v: int)
    | Disconnect
    | GuestWrite(a: Addr, b: Byte)

  /** Index of the breakpoint at gpa, |bps| if there is none. */
  function Find(bps: seq<Bp>, gpa: Addr, i: nat): (r: nat)
    requires i <= |bps|
    ensures i <= r <= |bps| && (r < |bps| ==> bps[r].gpa == gpa) && forall j :: i <= j < r ==> bps[j].gpa != gpa
    decreases |bps| - i
  {
    if i == |bps| || bps[i].gpa == gpa then i else Find(bps, gpa, i + 1)
  }

  predicate Patched(bps: seq<Bp>, a: Addr) { Find(bps, a, 0) < |bps| }

  /** Memory as the guest wrote it: each patched byte replaced by its shadow. */
  function View(s: State): map<Addr, Byte> {
    map a | a in s.mem :: if Patched(s.bps, a) then s.bps[Find(s.bps, a, 0)].shadow else s.mem[a]
  }

  function Insert(s: State, gpa: Addr): State
    requires gpa in s.mem
  {
    s.(mem := s.mem[gpa := TRAP], bps := s.bps + [Bp(gpa, s.mem[gpa])],
       caps := if s.bps == [] then s.caps + s.active else s.caps)
  }

  function Remove(s: State, i: nat): State
    requires i < |s.bps|
  {
    var bps := s.bps[..i] + s.bps[i + 1..];
    s.(mem := s.mem[s.bps[i].gpa := s.bps[i].shadow], bps := bps, caps := if bps == [] then s.caps - s.active else s.caps)
  }

  /** The first k shadows put back. */
  function Restored(mem: map<Addr, Byte>, bps: seq<Bp>, k: nat): map<Addr, Byte>
    requires k <= |bps|
  {
    if k == 0 then mem else Restored(mem, bps, k - 1)[bps[k - 1].gpa := bps[k - 1].shadow]
  }

  function RemoveAll(s: State): State {
    if s.bps == [] then s else s.(mem := Restored(s.mem, s.bps, |s.bps|), bps := [], caps := s.caps - s.active)
  }

  function Apply(s: State, c: Cmd): State {
    match c
    case Break(where, kind, insert) =>
      if kind != BP_SIZE || !where.At? || where.gpa !in s.mem then s
      else
        var i := Find(s.bps, where.gpa, 0);
        if insert then (if i == |s.bps| then Insert(s, where.gpa) else s)
        else if i < |s.bps| then Remove(s, i) else s
    case AddCpu(v) => s.(active := s.active + {v}, caps := if s.bps == [] then s.caps else s.caps + {v})
    case Disconnect => RemoveAll(s)
    case GuestWrite(a, b) => if a in s.mem then s.(mem := s.mem[a := b]) else s
  }

  /** A vCPU starts once, and the guest does not write the bytes that have been patched. */
  predicate Allowed(s: State, c: Cmd) {
    match c
    case AddCpu(v) => v !in s.active
    case GuestWrite(a, _) => !Patched(s.bps, a)
    case _ => true
  }

  function RunAll(s: State, cs: seq<Cmd>): State {
    if cs == [] then s else Apply(RunAll(s, cs[..|cs| - 1]), cs[|cs| - 1])
  }

  ghost predicate AllAllowed(s: State, cs: seq<Cmd>) {
    cs == [] || (AllAllowed(s, cs[..|cs| - 1]) && Allowed(RunAll(s, cs[..|cs| - 1]), cs[|cs| - 1]))
  }

  /** What the guest itself writes. */
  function Writes(mem: map<Addr, Byte>, cs: seq<Cmd>): map<Addr, Byte> {
    if cs == [] then mem
    else
      var m, c := Writes(mem, cs[..|cs| - 1]), cs[|cs| - 1];
      if c.GuestWrite? && c.a in m then m[c.a := c.b] else m
  }

  ghost predicate Distinct(bps: seq<Bp>) {
    forall i, j :: 0 <= i < j < |bps| ==> bps[i].gpa != bps[j].gpa
  }

  /** Breakpoints are at distinct RAM addresses that hold the trap; exits are enabled on all running
      vCPUs if there are any, and on none otherwise. */
  ghost predicate Inv(s: State) {
    && Distinct(s.bps)
    && (forall i :: 0 <= i < |s.bps| ==> s.bps[i].gpa in s.mem && s.mem[s.bps[i].gpa] == TRAP)
    && s.caps == if s.bps == [] then {} else s.active
  }

  lemma FindUnique(bps: seq<Bp>, i: nat)
    requires Distinct(bps) && i < |bps|
    ensures Find(bps, bps[i].gpa, 0) == i
  {
  }

  lemma PatchedIff(bps: seq<Bp>, a: Addr)
    ensures Patched(bps, a) <==> exists i :: 0 <= i < |bps| && bps[i].gpa == a
  {
  }

  /** A new breakpoint at an unpatched address hides none of the others. */
  lemma {:induction false} AddedFind(bps: seq<Bp>, bp: Bp, a: Addr)
    requires Distinct(bps) && !Patched(bps, bp.gpa)
    ensures var r := bps + [bp];
            && Distinct(r)
            && if a == bp.gpa then Find(r, a, 0) == |bps|
               else (Patched(r, a) <==> Patched(bps, a)) && (Patched(bps, a) ==> r[Find(r, a, 0)] == bps[Find(bps, a, 0)])
  {
    var r := bps + [bp];
    PatchedIff(bps, bp.gpa);
    assert Distinct(r);
    FindUnique(r, |bps|);
    PatchedIff(r, a);
    PatchedIff(bps, a);
    if Patched(bps, a) {
      assert r[Find(bps, a, 0)] == bps[Find(bps, a, 0)];
      FindUnique(r, Find(bps, a, 0));
    }
  }

  lemma {:induction false} InsertKeeps(s: State, gpa: Addr)
    requires Inv(s) && gpa in s.mem && !Patched(s.bps, gpa)
    ensures Inv(Insert(s, gpa)) && View(Insert(s, gpa)) == View(s)
  {
    var s', bp := Insert(s, gpa), Bp(gpa, s.mem[gpa]);
    AddedFind(s.bps, bp, gpa);
    assert Inv(s') by {
      PatchedIff(s.bps, gpa);
    }
    forall a | a in s.mem ensures View(s')[a] == View(s)[a] {
      AddedFind(s.bps, bp, a);
    }
  }

  lemma {:induction false} RemoveKeeps(s: State, i: nat)
    requires Inv(s) && i < |s.bps|
    ensures Inv(Remove(s, i)) && View(Remove(s, i)) == View(s)
  {
    var s', gpa := Remove(s, i), s.bps[i].gpa;
    RemoveDistinct(s.bps, i);
    FindUnique(s.bps, i);
    forall j | 0 <= j < |s'.bps| ensures s'.bps[j].gpa in s'.mem && s'.mem[s'.bps[j].gpa] == TRAP {
      assert s'.bps[j] == if j < i then s.bps[j] else s.bps[j + 1];
    }
    forall a | a in s.mem ensures View(s')[a] == View(s)[a] {
      RemovedFind(s.bps, i, a);
    }
  }

  lemma RemoveDistinct(bps: seq<Bp>, i: nat)
    requires Distinct(bps) && i < |bps|
    ensures Distinct(bps[..i] + bps[i + 1..])
  {
    var r := bps[..i] + bps[i + 1..];
    forall j, k | 0 <= j < k < |r| ensures r[j].gpa != r[k].gpa {
      assert r[j] == (if j < i then bps[j] else bps[j + 1]) && r[k] == (if k < i then bps[k] else bps[k + 1]);
    }
  }

  /** Looking up any other address finds the same breakpoint as before. */
  lemma {:induction false} RemovedFind(bps: seq<Bp>, i: nat, a: Addr)
    requires Distinct(bps) && i < |bps|
    ensures var r := bps[..i] + bps[i + 1..];
            if a == bps[i].gpa then !Patched(r, a)
            else (Patched(r, a) <==> Patched(bps, a)) && (Patched(bps, a) ==> r[Find(r, a, 0)] == bps[Find(bps, a, 0)])
  {
    var r := bps[..i] + bps[i + 1..];
    RemoveDistinct(bps, i);
    PatchedIff(r, a);
    PatchedIff(bps, a);
    if a != bps[i].gpa && Patched(bps, a) {
      var k := Find(bps, a, 0);
      var j := if k < i then k else k - 1;
      assert r[j] == bps[k];
      FindUnique(r, j);
    } else if a == bps[i].gpa {
      forall j | 0 <= j < |r| ensures r[j].gpa != a {
        assert r[j] == if j < i then bps[j] else bps[j + 1];
      }
    }
  }

  /** Apart from address g, memory and breakpoints are as before. */
  ghost predicate ElsewhereSame(s: State, t: State, g: Addr) {
    && t.mem.Keys == s.mem.Keys && t.active == s.active
    && (forall a :: a in s.mem && a != g ==> t.mem[a] == s.mem[a])
    && (forall a :: a != g ==> (HasBreak(t, a) <==> HasBreak(s, a)))
  }

  ghost predicate HasBreak(s: State, a: Addr) { exists i :: 0 <= i < |s.bps| && s.bps[i].gpa == a }

  lemma {:induction false} HasBreakAfterInsert(s: State, g: Addr, a: Addr)
    requires Inv(s) && g in s.mem && !Patched(s.bps, g)
    ensures HasBreak(Insert(s, g), a) <==> a == g || HasBreak(s, a)
  {
    AddedFind(s.bps, Bp(g, s.mem[g]), a);
    PatchedIff(s.bps, a);
    PatchedIff(Insert(s, g).bps, a);
  }

  lemma {:induction false} HasBreakAfterRemove(s: State, k: nat, a: Addr)
    requires Inv(s) && k < |s.bps|
    ensures HasBreak(Remove(s, k), a) <==> a != s.bps[k].gpa && HasBreak(s, a)
  {
    RemovedFind(s.bps, k, a);
    PatchedIff(s.bps, a);
    PatchedIff(Remove(s, k).bps, a);
  }

  /** After a request to insert, RAM address g has a breakpoint and holds the trap, and nothing else has
      changed. */
  lemma {:induction false} InsertEffect(s: State, g: Addr)
    requires Inv(s) && g in s.mem
    ensures var t := Apply(s, Break(At(g), 1, true)); ElsewhereSame(s, t, g) && HasBreak(t, g) && t.mem[g] == 0xcc
  {
    PatchedIff(s.bps, g);
    if !Patched(s.bps, g) {
      forall a ensures HasBreak(Insert(s, g), a) <==> a == g || HasBreak(s, a) {
        HasBreakAfterInsert(s, g, a);
      }
    }
  }

  /** After one to remove, it has none and holds what the guest has written, and nothing else has changed. */
  lemma {:induction false} RemoveEffect(s: State, g: Addr)
    requires Inv(s) && g in s.mem
    ensures var t := Apply(s, Break(At(g), 1, false)); ElsewhereSame(s, t, g) && !HasBreak(t, g) && t.mem[g] == View(s)[g]
  {
    PatchedIff(s.bps, g);
    if Patched(s.bps, g) {
      var k := Find(s.bps, g, 0);
      forall a ensures HasBreak(Remove(s, k), a) <==> a != g && HasBreak(s, a) {
        HasBreakAfterRemove(s, k, a);
      }
    }
  }

  /** A request of another kind, for an unmapped address or for one outside RAM changes nothing. */
  lemma BreakRefused(s: State, where: Lookup, kind: int, insert: bool)
    requires kind != 1 || !where.At? || where.gpa !in s.mem
    ensures Apply(s, Break(where, kind, insert)) == s
  {
  }

  lemma {:induction false} RestoredAt(mem: map<Addr, Byte>, bps: seq<Bp>, k: nat, a: Addr)
    requires Distinct(bps) && k <= |bps| && a in mem && forall i :: 0 <= i < |bps| ==> bps[i].gpa in mem
    ensures Restored(mem, bps, k).Keys == mem.Keys
    ensures Restored(mem, bps, k)[a] == if Find(bps, a, 0) < k then bps[Find(bps, a, 0)].shadow else mem[a]
  {
    if k > 0 {
      RestoredAt(mem, bps, k - 1, a);
      FindUnique(bps, k - 1);
    }
  }

  /** Disconnecting puts the guest's own memory back. */
  lemma {:induction false} RemoveAllRestores(s: State)
    requires Inv(s)
    ensures Inv(RemoveAll(s)) && RemoveAll(s).mem == View(s) && View(RemoveAll(s)) == View(s)
  {
    forall a | a in s.mem ensures RemoveAll(s).mem.Keys == s.mem.Keys && RemoveAll(s).mem[a] == View(s)[a] {
      RestoredAt(s.mem, s.bps, |s.bps|, a);
    }
    RestoredKeys(s.mem, s.bps, |s.bps|);
  }

  lemma {:induction false} RestoredKeys(mem: map<Addr, Byte>, bps: seq<Bp>, k: nat)
    requires k <= |bps| && forall i :: 0 <= i < |bps| ==> bps[i].gpa in mem
    ensures Restored(mem, bps, k).Keys == mem.Keys
  {
    if k > 0 {
      RestoredKeys(mem, bps, k - 1);
    }
  }

  lemma {:induction false} StepKeeps(s: State, c: Cmd)
    requires Inv(s) && Allowed(s, c)
    ensures Inv(Apply(s, c))
    ensures View(Apply(s, c)) == if c.GuestWrite? && c.a in View(s) then View(s)[c.a := c.b] else View(s)
  {
    match c
    case Break(where, kind, insert) =>
      if kind == BP_SIZE && where.At? && where.gpa in s.mem {
        var i := Find(s.bps, where.gpa, 0);
        if insert && i == |s.bps| {
          InsertKeeps(s, where.gpa);
        } else if !insert && i < |s.bps| {
          RemoveKeeps(s, i);
        }
      }
    case AddCpu(v) =>
    case Disconnect => RemoveAllRestores(s);
    case GuestWrite(a, b) => WriteKeeps(s, a, b);
  }

  lemma {:induction false} WriteKeeps(s: State, a: Addr, b: Byte)
    requires Inv(s) && !Patched(s.bps, a)
    ensures Inv(Apply(s, GuestWrite(a, b)))
    ensures View(Apply(s, GuestWrite(a, b))) == if a in View(s) then View(s)[a := b] else View(s)
  {
    PatchedIff(s.bps, a);
  }

  /** Transparency: whatever the debugger does, the guest's memory, seen without the traps, is exactly
      what the guest itself has written. */
  lemma {:induction false} Transparent(s: State, cs: seq<Cmd>)
    requires Inv(s) && s.bps == [] && AllAllowed(s, cs)
    ensures Inv(RunAll(s, cs)) && View(RunAll(s, cs)) == Writes(s.mem, cs)
  {
    if cs == [] {
      assert View(s) == s.mem;
    } else {
      var p := cs[..|cs| - 1];
      Transparent(s, p);
      StepKeeps(RunAll(s, p), cs[|cs| - 1]);
    }
  }

  /** And after a disconnect the traps are gone from memory itself. */
  lemma {:induction false} DisconnectRestores(s: State, cs: seq<Cmd>)
    requires Inv(s) && s.bps == [] && AllAllowed(s, cs)
    ensures var t := RunAll(s, cs + [Disconnect]); t.mem == Writes(s.mem, cs) && t.bps == [] && t.caps == {}
  {
    Transparent(s, cs);
    RemoveAllRestores(RunAll(s, cs));
    assert (cs + [Disconnect])[..|cs|] == cs;
  }

  /** The debug server's state under its lock. */
  class DebugServer {
    var mem: map<Addr, Byte>
    var bps: seq<Bp>
    var active: set<int>
    var caps: set<int>

    ghost function Value(): State
      reads this
    {
      State(mem, bps, active, caps)
    }

    constructor (mem: map<Addr, Byte>)
      ensures Value() == State(mem, [], {}, {}) && Inv(Value())
    {
      this.mem, bps, active, caps := mem, [], {}, {};
    }

    /** `find_breakpoint`. */
    method FindBreakpoint(gpa: Addr) returns (i: nat)
      ensures i == Find(bps, gpa, 0)
    {
      i := 0;
      while i < |bps| && bps[i].gpa != gpa
        invariant i <= |bps| && Find(bps, gpa, i) == Find(bps, gpa, 0)
      {
        i := i + 1;
      }
    }

    /** `set_breakpoint_caps`, with every capability call succeeding. */
    method SetCaps(enable: bool)
      modifies this`caps
      ensures caps == if enable then old(caps) + active else old(caps) - active
    {
      var mask := active;
      while exists v :: v in mask
        invariant mask <= active && caps == if enable then old(caps) + (active - mask) else old(caps) - (active - mask)
        decreases |mask|
      {
        var v :| v in mask;
        mask := mask - {v};
        caps := if enable then caps + {v} else caps - {v};
      }
      assert mask == {};
    }

    /** `update_sw_breakpoint`. */
    method Update(where: Lookup, kind: int, insert: bool)
      modifies this
      ensures Value() == Apply(old(Value()), Break(where, kind, insert))
    {
      if kind != BP_SIZE || !where.At? || where.gpa !in mem {
        return;
      }
      var gpa := where.gpa;
      var i := FindBreakpoint(gpa);
      if insert {
        if i == |bps| {
          if bps == [] {
            SetCaps(true);
          }
          bps := bps + [Bp(gpa, mem[gpa])];
          mem := mem[gpa := TRAP];
        }
      } else if i < |bps| {
        mem := mem[gpa := bps[i].shadow];
        bps := bps[..i] + bps[i + 1..];
        if bps == [] {
          SetCaps(false);
        }
      }
    }

    /** `remove_all_sw_breakpoints`, from `close_connection`. */
    method Close()
      modifies this
      ensures Value() == Apply(old(Value()), Disconnect)
    {
      if bps == [] {
        return;
      }
      var k := 0;
      while k < |bps|
        invariant 0 <= k <= |bps| && mem == Restored(old(mem), bps, k)
        invariant bps == old(bps) && active == old(active) && caps == old(caps)
      {
        mem := mem[bps[k].gpa := bps[k].shadow];
        k := k + 1;
      }
      bps := [];
      SetCaps(false);
    }

    /** `gdb_cpu_add`. */
    method CpuAdd(v: int)
      requires v !in active
      modifies this
      ensures Value() == Apply(old(Value()), AddCpu(v))
    {
      active := active + {v};
      if bps != [] {
        caps := caps + {v};
      }
    }
  }
}
