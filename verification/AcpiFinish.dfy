/** `basl_finish`: the tables are laid out in guest memory, then their pointers and checksums are
    patched in place.

    `mem` is guest memory from BHYVE_ACPI_BASE on, as far as it is mapped; offsets are 32 bits wide. */
module AcpiFinish {
  import opened Common
  import opened AcpiBytes
  import opened AcpiImage

  const WORD: nat := 0x1_0000_0000

  datatype Outcome = Done | NoTables | BadTable | NotMapped | NoSource

  // Memory

  ghost predicate Outside(m: seq<Byte>, m': seq<Byte>, lo: nat, hi: nat) {
    |m'| == |m| && forall x :: 0 <= x < |m| && !(lo <= x < hi) ==> m'[x] == m[x]
  }

  lemma {:induction false} PutOutside(m: seq<Byte>, off: nat, field: seq<Byte>)
    requires off + |field| <= |m|
    ensures Outside(m, Put(m, off, field), off, off + |field|)
  {
  }

  lemma {:induction false} SliceOutside(m: seq<Byte>, m': seq<Byte>, lo: nat, hi: nat, a: nat, b: nat)
    requires Outside(m, m', lo, hi) && a <= b <= |m| && (b <= lo || hi <= a)
    ensures m'[a..b] == m[a..b]
  {
  }

  /** A write inside a stretch of memory is a write to that stretch. */
  lemma {:induction false} PutInside(m: seq<Byte>, base: nat, n: nat, off: nat, field: seq<Byte>)
    requires base + n <= |m| && off + |field| <= n
    ensures Put(m, base + off, field)[base..base + n] == Put(m[base..base + n], off, field)
  {
    var a, b := Put(m, base + off, field), Put(m[base..base + n], off, field);
    forall x | 0 <= x < n ensures a[base..base + n][x] == b[x] {
      assert a[base..base + n][x] == a[base + x];
    }
  }

  // Layout

  predicate PowerOfTwo(a: nat) { a == 1 || (a > 1 && a % 2 == 0 && PowerOfTwo(a / 2)) }

  /** `roundup2` in 32 bits, for a power of two. */
  function RoundUp(off: nat, a: nat): nat
    requires a > 0
  {
    var x := (off + a - 1) % WORD;
    x - x % a
  }

  /** Without wrap-around it is the next multiple. */
  lemma {:induction false} RoundUpExact(off: nat, a: nat)
    requires 0 < a && off + a <= WORD
    ensures RoundUp(off, a) % a == 0 && off <= RoundUp(off, a) < off + a
  {
    var x := off + a - 1;
    SmallMod(x, WORD);
    var q := x / a;
    assert RoundUp(off, a) == x - x % a == q * a;
    MultipleMod(q, a);
  }

  lemma {:induction false} MultipleMod(q: nat, a: nat)
    requires a > 0
    ensures (q * a) % a == 0
  {
    DivUnique(q * a, a, q, 0);
  }

  /** The base address is aligned itself. */
  lemma {:induction false} BaseAligned(off: nat, a: nat)
    requires 0 < a <= 0x40 && PowerOfTwo(a) && off % a == 0
    ensures (BASE + off) % a == 0
  {
    assert a == 1 || a == 2 || a == 4 || a == 8 || a == 0x10 || a == 0x20 || a == 0x40 by {
      SmallPowers(a);
    }
    var p, q := BASE / a, off / a;
    assert BASE % a == 0;
    assert BASE == a * p && off == a * q;
    assert BASE + off == a * (p + q) + 0;
    DivUnique(BASE + off, a, p + q, 0);
  }

  lemma {:induction false} SmallPowers(a: nat)
    requires a <= 0x40 && PowerOfTwo(a)
    ensures a == 1 || a == 2 || a == 4 || a == 8 || a == 0x10 || a == 0x20 || a == 0x40
  {
    if a > 1 {
      SmallPowers(a / 2);
    }
  }

  /** Tables 0 to k - 1 are aligned, one after the other, and end by `off`. */
  ghost predicate Laid(ts: seq<Table>, k: nat, off: nat) {
    && k <= |ts|
    && (forall i :: 0 <= i < k ==> ts[i].alignment > 0 && (BASE + ts[i].off) % ts[i].alignment == 0 && ts[i].End() <= off)
    && (forall i, j :: 0 <= i < j < k ==> ts[i].End() <= ts[j].off)
  }

  function Image(m: seq<Byte>, t: Table): seq<Byte>
    requires t.End() <= |m|
  {
    m[t.off..t.End()]
  }

  // Looking tables up

  /** What `strncmp` looks at. */
  function UpToNul(s: seq<Byte>): seq<Byte> {
    if s == [] || s[0] == 0 then [] else [s[0]] + UpToNul(s[1..])
  }

  predicate SameSig(a: seq<Byte>, b: seq<Byte>) { UpToNul(a) == UpToNul(b) }

  lemma {:induction false} SameHead(a: seq<Byte>, b: seq<Byte>)
    requires a != [] && b != []
    ensures SameSig(a, b) <==> a[0] == b[0] && (a[0] == 0 || SameSig(a[1..], b[1..]))
  {
    var c, d := UpToNul(a[1..]), UpToNul(b[1..]);
    if a[0] == b[0] && a[0] != 0 {
      assert ([a[0]] + c)[1..] == c && ([b[0]] + d)[1..] == d;
    } else if a[0] != 0 && b[0] != 0 {
      assert ([a[0]] + c)[0] != ([b[0]] + d)[0];
    }
  }

  /** Two signatures match if they agree in every byte up to and including the first NUL. */
  lemma {:induction false} SigsMatch(a: seq<Byte>, b: seq<Byte>)
    requires |a| == |b| == 4
    ensures SameSig(a, b) <==>
            a[0] == b[0] && (a[0] == 0 || (a[1] == b[1] && (a[1] == 0 || (a[2] == b[2] && (a[2] == 0 || a[3] == b[3])))))
  {
    assert a[1..][1..] == a[2..] && a[2..][1..] == a[3..] && b[1..][1..] == b[2..] && b[2..][1..] == b[3..];
    SameHead(a, b);
    SameHead(a[1..], b[1..]);
    SameHead(a[2..], b[2..]);
    SameHead(a[3..], b[3..]);
    assert a[3..][1..] == [] && b[3..][1..] == [];
  }

  /** `basl_get_table_by_signature`, as an index; |ts| when there is none. */
  function FirstOf(ts: seq<Table>, sig: seq<Byte>, i: nat): (r: nat)
    requires i <= |ts|
    ensures i <= r <= |ts|
    decreases |ts| - i
  {
    if i == |ts| || SameSig(ts[i].Sig(), sig) then i else FirstOf(ts, sig, i + 1)
  }

  /** It is the first whose signature matches, if there is one. */
  lemma {:induction false} FirstMatches(ts: seq<Table>, sig: seq<Byte>, i: nat)
    requires i <= |ts|
    ensures var r := FirstOf(ts, sig, i);
            (r < |ts| ==> SameSig(ts[r].Sig(), sig)) && forall j :: i <= j < r ==> !SameSig(ts[j].Sig(), sig)
    decreases |ts| - i
  {
    if i < |ts| && !SameSig(ts[i].Sig(), sig) {
      FirstMatches(ts, sig, i + 1);
    }
  }

  predicate HasSource(ts: seq<Table>, p: Pointer) { FirstOf(ts, p.sig, 0) < |ts| }

  predicate Found(ts: seq<Table>, ps: seq<Pointer>, k: nat)
    requires k <= |ps|
  {
    forall i :: 0 <= i < k ==> HasSource(ts, ps[i])
  }

  /** The address of the first table with each pointer's signature. */
  function Addresses(ts: seq<Table>, ps: seq<Pointer>): (r: seq<nat>)
    ensures |r| == |ps|
  {
    seq(|ps|, i requires 0 <= i < |ps| =>
      var s := FirstOf(ts, ps[i].sig, 0);
      if s < |ts| then BASE + ts[s].off else 0)
  }

  ghost predicate AllFound(ts: seq<Table>, k: nat)
    requires k <= |ts|
  {
    forall i :: 0 <= i < k ==> Found(ts, ts[i].pointers, |ts[i].pointers|)
  }

  // When `basl_finish` succeeds

  /** Where table k - 1 ends if every table starts at the first multiple of its alignment behind the one before. */
  function EndOf(ts: seq<Table>, k: nat): nat
    requires k <= |ts| && forall i :: 0 <= i < |ts| ==> ts[i].alignment > 0
  {
    if k == 0 then 0
    else
      var a := ts[k - 1].alignment;
      (EndOf(ts, k - 1) + a - 1) / a * a + |ts[k - 1].data|
  }

  /** The first k tables are not empty and fit into n bytes. */
  ghost predicate Fits(ts: seq<Table>, k: nat, n: nat)
    requires k <= |ts| && forall i :: 0 <= i < |ts| ==> ts[i].alignment > 0
  {
    forall i :: 0 <= i < k ==> ts[i].data != [] && EndOf(ts, i + 1) <= n
  }

  /** Every pointer of every table names the signature of some table. */
  ghost predicate Resolves(ts: seq<Table>)
    requires forall i :: 0 <= i < |ts| ==> WellFormed(ts[i])
  {
    forall i :: 0 <= i < |ts| ==> forall p :: p in ts[i].pointers ==> Named(ts, p.sig)
  }

  /** Some table has this signature, once its length is set. */
  ghost predicate Named(ts: seq<Table>, sig: seq<Byte>)
    requires forall i :: 0 <= i < |ts| ==> WellFormed(ts[i])
  {
    exists k :: 0 <= k < |ts| && SameSig(Sized(ts[k]).Sig(), sig)
  }

  lemma {:induction false} NamedHas(ts0: seq<Table>, ts: seq<Table>, p: Pointer)
    requires SizedAs(ts0, ts)
    ensures Named(ts0, p.sig) <==> HasSource(ts, p)
  {
    var r := FirstOf(ts, p.sig, 0);
    FirstMatches(ts, p.sig, 0);
    if r < |ts| {
      assert SameSig(Sized(ts0[r]).Sig(), p.sig);
    }
    if k :| 0 <= k < |ts0| && SameSig(Sized(ts0[k]).Sig(), p.sig) {
      assert SameSig(ts[k].Sig(), p.sig);
    }
  }

  lemma {:induction false} ResolvesFound(ts0: seq<Table>, ts: seq<Table>)
    requires SizedAs(ts0, ts)
    ensures Resolves(ts0) <==> AllFound(ts, |ts|)
  {
    forall i, j | 0 <= i < |ts| && 0 <= j < |ts[i].pointers| ensures Named(ts0, ts0[i].pointers[j].sig) <==> HasSource(ts, ts[i].pointers[j]) {
      NamedHas(ts0, ts, ts[i].pointers[j]);
    }
    if AllFound(ts, |ts|) {
      forall i, p | 0 <= i < |ts0| && p in ts0[i].pointers ensures Named(ts0, p.sig) {
        var j :| 0 <= j < |ts0[i].pointers| && ts0[i].pointers[j] == p;
        assert HasSource(ts, ts[i].pointers[j]);
      }
    }
  }

  /** Where `Install` puts table k, and whether it does. */
  lemma {:induction false} EndNext(ts: seq<Table>, k: nat, n: nat)
    requires k < |ts| && 0 < ts[k].alignment <= 0x40 && |ts[k].data| < WORD && BASE + n <= WORD
    requires (forall i :: 0 <= i < |ts| ==> ts[i].alignment > 0) && EndOf(ts, k) <= n
    ensures var end := RoundUp(EndOf(ts, k), ts[k].alignment) + |ts[k].data|;
            && end == EndOf(ts, k + 1)
            && (ts[k].data != [] && end <= n <==> end % WORD > end - |ts[k].data| && end <= n)
  {
    var a, off := ts[k].alignment, EndOf(ts, k);
    var x := off + a - 1;
    SmallMod(x, WORD);
    assert x - x % a == x / a * a;
    var end := RoundUp(off, a) + |ts[k].data|;
    if end <= n {
      SmallMod(end, WORD);
    }
  }

  class Basl {
    var tables: seq<Table>
    var mem: seq<Byte>

    constructor (mem: seq<Byte>)
      ensures this.mem == mem && tables == []
    {
      this.mem := mem;
      tables := [];
    }

    /** `basl_finish_set_length`. */
    method SetLengths(i: nat)
      requires i < |tables| && WellFormed(tables[i])
      modifies this`tables
      ensures tables == old(tables)[i := Sized(old(tables)[i])]
    {
      var t := tables[i];
      var data := t.data;
      var k := 0;
      while k < |t.lengths|
        invariant 0 <= k <= |t.lengths| && data == WithLengths(t.data, t.lengths, k)
      {
        data := Put(data, t.lengths[k].off, Enc(|t.data|, t.lengths[k].size));
        k := k + 1;
      }
      tables := tables[i := t.(data := data)];
    }

    /** `basl_finish_install_guest_tables`. */
    method Install(i: nat, off: nat) returns (r: Outcome, off': nat)
      requires i < |tables| && tables[i].alignment > 0 && off < WORD && |tables[i].data| < WORD
      modifies this
      ensures |tables| == |old(tables)|
      ensures var t := old(tables)[i];
              var end := RoundUp(off, t.alignment) + |t.data|;
              r == if end % WORD <= end - |t.data| then BadTable else if end > |old(mem)| then NotMapped else Done
      ensures r.Done? ==>
        && var t := tables[i];
        && tables == old(tables)[i := old(tables)[i].(off := t.off)]
        && t.off == RoundUp(off, t.alignment) && t.End() <= |old(mem)| && off' == t.End() % WORD && t.off < off'
        && mem == Put(old(mem), t.off, t.data)
      ensures !r.Done? ==> mem == old(mem)
    {
      var t := tables[i];
      t := t.(off := RoundUp(off, t.alignment));
      tables := tables[i := t];
      off' := (t.off + |t.data|) % WORD;
      if off' <= t.off {
        return BadTable, off';
      }
      if t.off + |t.data| > |mem| {
        return NotMapped, off';
      }
      mem := Put(mem, t.off, t.data);
      r := Done;
    }

    /** `basl_finish_patch_pointers`. */
    method PatchPointers(i: nat) returns (r: Outcome)
      requires i < |tables| && WellFormed(tables[i]) && tables[i].End() <= |mem|
      modifies this`mem
      ensures Outside(old(mem), mem, tables[i].off, tables[i].End())
      ensures var t := tables[i];
              && r == (if Found(tables, t.pointers, |t.pointers|) then Done else NoSource)
              && (r.Done? ==> Image(mem, t) == WithPointers(Image(old(mem), t), t.pointers, Addresses(tables, t.pointers), |t.pointers|))
    {
      var ok, m := PointerPass(mem, tables, tables[i]);
      mem := m;
      r := if ok then Done else NoSource;
    }

    /** `basl_finish_patch_checksums`. */
    method PatchChecksums(i: nat)
      requires i < |tables| && WellFormed(tables[i]) && tables[i].End() <= |mem|
      modifies this`mem
      ensures Outside(old(mem), mem, tables[i].off, tables[i].End())
      ensures var t := tables[i]; Image(mem, t) == WithChecksums(Image(old(mem), t), t.checksums, |t.checksums|)
    {
      mem := ChecksumPass(mem, tables[i]);
    }

    /** One turn of the first loop of `basl_finish`: table k is sized and copied to its place. */
    method InstallOne(k: nat, off: nat, ghost ts0: seq<Table>, ghost m0: seq<Byte>) returns (r: Outcome, off': nat)
      requires Usable(ts0) && BASE + |mem| <= WORD && k < |tables| && InPlace(ts0, tables, mem, k, off) && Outside(m0, mem, 0, off)
      modifies this
      ensures |tables| == |old(tables)| && |mem| == |old(mem)|
      ensures if Fits(ts0, k + 1, |mem|) then r.Done? else r.BadTable? || r.NotMapped?
      ensures r.Done? ==> off' <= |mem| && InPlace(ts0, tables, mem, k + 1, off') && Outside(m0, mem, 0, off')
    {
      ghost var ts, m := tables, mem;
      EndNext(ts0, k, |mem|);
      SetLengths(k);
      r, off' := Install(k, off);
      if r.Done? {
        InstallStep(ts0, ts, tables, m0, m, mem, k, off);
        InPlaceStep(ts0, ts, tables, m, mem, k, off, off');
      }
    }

    /** The first loop. */
    method InstallAll() returns (r: Outcome, ghost end: nat)
      requires Usable(tables) && BASE + |mem| <= WORD
      modifies this
      ensures |tables| == |old(tables)| && |mem| == |old(mem)|
      ensures if Fits(old(tables), |tables|, |mem|) then r.Done? else r.BadTable? || r.NotMapped?
      ensures r.Done? ==> end <= |mem| && InPlace(old(tables), tables, mem, |tables|, end) && Outside(old(mem), mem, 0, end)
    {
      ghost var ts0, m0 := tables, mem;
      var off: nat, k: nat := 0, 0;
      while k < |tables|
        invariant k <= |tables| == |ts0| && |mem| == |m0| && off <= |mem|
        invariant InPlace(ts0, tables, mem, k, off) && Outside(m0, mem, 0, off)
      {
        r, off := InstallOne(k, off, ts0, m0);
        if !r.Done? {
          return r, 0;
        }
        k := k + 1;
      }
      return Done, off;
    }

    /** Pointers, then checksums, of one table. */
    method PatchTable(k: nat, ghost end: nat) returns (r: Outcome)
      requires k < |tables| && Laid(tables, |tables|, end) && end <= |mem| && HalfDone(tables, mem, k)
      modifies this`mem
      ensures Outside(old(mem), mem, tables[k].off, tables[k].End())
      ensures r == if Found(tables, tables[k].pointers, |tables[k].pointers|) then Done else NoSource
      ensures r.Done? ==> HalfDone(tables, mem, k + 1)
    {
      ghost var m := mem;
      assert Waiting(tables, mem, k);
      r := PatchPointers(k);
      if r.Done? {
        ghost var m1 := mem;
        PatchChecksums(k);
        OutsideTrans(m, m1, mem, tables[k].off, tables[k].End());
        PatchStep(tables, m, m1, mem, k, end);
      }
    }

    /** The second loop. */
    method PatchAll(ghost end: nat) returns (r: Outcome)
      requires end <= |mem| && Laid(tables, |tables|, end) && HalfDone(tables, mem, 0)
      modifies this`mem
      ensures Outside(old(mem), mem, 0, end) && r == if AllFound(tables, |tables|) then Done else NoSource
      ensures r.Done? ==> HalfDone(tables, mem, |tables|)
    {
      var k := 0;
      while k < |tables|
        invariant 0 <= k <= |tables| && Outside(old(mem), mem, 0, end) && HalfDone(tables, mem, k) && AllFound(tables, k)
      {
        ghost var m := mem;
        r := PatchTable(k, end);
        PatchStays(old(mem), m, mem, tables, k, end);
        if !r.Done? {
          return;
        }
        k := k + 1;
      }
      r := Done;
    }

    /** `basl_finish`, with the tables in memory: it succeeds exactly if there are tables, all of them fit
        and every pointer names one; then every table stands right behind the one before, up to its
        alignment, with all lengths, pointers and checksums patched, and the rest of memory is as it was. */
    method Finish() returns (r: Outcome, ghost end: nat)
      requires Usable(tables) && BASE + |mem| <= WORD
      modifies this
      ensures if old(tables) == [] then r.NoTables?
              else if !Fits(old(tables), |old(tables)|, |old(mem)|) then r.BadTable? || r.NotMapped?
              else if !Resolves(old(tables)) then r.NoSource?
              else r.Done?
      ensures r.Done? ==> end <= |mem| && Complete(old(tables), tables, mem, end) && Outside(old(mem), mem, 0, end)
      ensures r.Done? ==> forall i :: 0 <= i < |tables| ==> tables[i].End() == EndOf(old(tables), i + 1)
    {
      end := 0;
      if tables == [] {
        return NoTables, 0;
      }
      r, end := InstallAll();
      if r.Done? {
        ghost var m := mem;
        InstalledWaits(old(tables), tables, mem, end);
        ResolvesFound(old(tables), tables);
        r := PatchAll(end);
        OutsideTrans(old(mem), m, mem, 0, end);
      }
    }
  }

  /** What `basl_table_create` and the asserts of the passes ensure of the tables. */
  ghost predicate Usable(ts: seq<Table>) {
    forall i :: 0 <= i < |ts| ==> WellFormed(ts[i]) && 0 < ts[i].alignment <= 0x40 && PowerOfTwo(ts[i].alignment) && |ts[i].data| < WORD
  }

  /** The first k tables have been sized, laid out up to `off` and copied; the others wait. */
  ghost predicate Installed(ts0: seq<Table>, ts: seq<Table>, m: seq<Byte>, k: nat, off: nat) {
    && |ts| == |ts0| && k <= |ts| && off <= |m| && Laid(ts, k, off)
    && (forall i :: 0 <= i < |ts| ==> WellFormed(ts0[i]))
    && (forall i :: 0 <= i < k ==> ts[i] == Sized(ts0[i]).(off := ts[i].off) && m[ts[i].off..ts[i].End()] == ts[i].data)
    && (forall i :: k <= i < |ts| ==> ts[i] == ts0[i])
  }

  /** Table i stands in memory as its records say. */
  ghost predicate Finished(ts: seq<Table>, m: seq<Byte>, i: nat) {
    && i < |ts| && WellFormed(ts[i]) && ts[i].End() <= |m| && Found(ts, ts[i].pointers, |ts[i].pointers|)
    && Image(m, ts[i]) == Final(ts[i], Addresses(ts, ts[i].pointers))
  }

  ghost predicate Waiting(ts: seq<Table>, m: seq<Byte>, i: nat) {
    i < |ts| && WellFormed(ts[i]) && ts[i].End() <= |m| && Image(m, ts[i]) == ts[i].data
  }

  ghost predicate HalfDone(ts: seq<Table>, m: seq<Byte>, k: nat) {
    && (forall i :: 0 <= i < k ==> Finished(ts, m, i))
    && (forall i :: k <= i < |ts| ==> Waiting(ts, m, i))
  }

  /** The tables as they were given, with their lengths set and a place in memory. */
  ghost predicate SizedAs(ts0: seq<Table>, ts: seq<Table>) {
    |ts| == |ts0| && forall i :: 0 <= i < |ts| ==> WellFormed(ts0[i]) && ts[i] == Sized(ts0[i]).(off := ts[i].off)
  }

  /** All of `basl_finish` has been done to the tables ts0. */
  ghost predicate Complete(ts0: seq<Table>, ts: seq<Table>, m: seq<Byte>, end: nat) {
    SizedAs(ts0, ts) && Laid(ts, |ts|, end) && HalfDone(ts, m, |ts|)
  }

  /** They fit, and stand as close as their alignments let them. */
  ghost predicate InPlace(ts0: seq<Table>, ts: seq<Table>, m: seq<Byte>, k: nat, off: nat)
    requires Usable(ts0)
  {
    && Installed(ts0, ts, m, k, off) && Fits(ts0, k, |m|) && off == EndOf(ts0, k)
    && forall i :: 0 <= i < k ==> ts[i].End() == EndOf(ts0, i + 1)
  }

  lemma {:induction false} InPlaceStep(ts0: seq<Table>, ts: seq<Table>, ts': seq<Table>, m: seq<Byte>, m': seq<Byte>, k: nat, off: nat, off': nat)
    requires Usable(ts0) && k < |ts| && InPlace(ts0, ts, m, k, off) && |m'| == |m| && Installed(ts0, ts', m', k + 1, off')
    requires ts' == ts[k := ts'[k]] && ts'[k].End() == off' == EndOf(ts0, k + 1) && ts0[k].data != []
    ensures InPlace(ts0, ts', m', k + 1, off')
  {
  }

  lemma {:induction false} InstalledWaits(ts0: seq<Table>, ts: seq<Table>, m: seq<Byte>, end: nat)
    requires Installed(ts0, ts, m, |ts|, end)
    ensures HalfDone(ts, m, 0) && SizedAs(ts0, ts) && Laid(ts, |ts|, end)
  {
    forall i | 0 <= i < |ts| ensures Waiting(ts, m, i) {
      assert WellFormed(Sized(ts0[i]));
    }
  }

  lemma {:induction false} OutsideTrans(a: seq<Byte>, b: seq<Byte>, c: seq<Byte>, lo: nat, hi: nat)
    requires Outside(a, b, lo, hi) && Outside(b, c, lo, hi)
    ensures Outside(a, c, lo, hi)
  {
  }

  /** One pointer: the address is added to what the field holds. */
  method PatchPointer(m: seq<Byte>, t: Table, p: Pointer, a: nat) returns (m': seq<Byte>)
    requires t.End() <= |m| && p.off + p.size <= |t.data|
    ensures Outside(m, m', t.off, t.End()) && Image(m', t) == AddPointer(Image(m, t), p, a)
  {
    PatchOne(m, t, p, a);
    var val := Dec(m[t.off + p.off..t.off + p.off + p.size]) + a;
    m' := Put(m, t.off + p.off, Enc(val, p.size));
  }

  /** The memory has had k pointers of table t patched. */
  ghost predicate Patched(m0: seq<Byte>, m: seq<Byte>, t: Table, at: seq<nat>, k: nat)
    requires WellFormed(t) && t.End() <= |m0| && k <= |at| == |t.pointers|
  {
    Outside(m0, m, t.off, t.End()) && Image(m, t) == WithPointers(Image(m0, t), t.pointers, at, k)
  }

  lemma {:induction false} PatchedStep(m0: seq<Byte>, m: seq<Byte>, m': seq<Byte>, t: Table, at: seq<nat>, k: nat)
    requires WellFormed(t) && t.End() <= |m0| && k < |at| == |t.pointers| && Patched(m0, m, t, at, k)
    requires Outside(m, m', t.off, t.End()) && Image(m', t) == AddPointer(Image(m, t), t.pointers[k], at[k])
    ensures Patched(m0, m', t, at, k + 1)
  {
    OutsideTrans(m0, m, m', t.off, t.End());
  }

  method PatchNext(ghost m0: seq<Byte>, m: seq<Byte>, t: Table, ghost at: seq<nat>, k: nat, a: nat) returns (m': seq<Byte>)
    requires WellFormed(t) && t.End() <= |m0| && k < |at| == |t.pointers| && a == at[k] && Patched(m0, m, t, at, k)
    ensures Patched(m0, m', t, at, k + 1)
  {
    m' := PatchPointer(m, t, t.pointers[k], a);
    PatchedStep(m0, m, m', t, at, k);
  }

  /** The loop over a table's pointers. */
  method PointerPass(m0: seq<Byte>, ts: seq<Table>, t: Table) returns (ok: bool, m: seq<Byte>)
    requires WellFormed(t) && t.End() <= |m0|
    ensures Outside(m0, m, t.off, t.End()) && (ok <==> Found(ts, t.pointers, |t.pointers|))
    ensures ok ==> Image(m, t) == WithPointers(Image(m0, t), t.pointers, Addresses(ts, t.pointers), |t.pointers|)
  {
    m := m0;
    ghost var at := Addresses(ts, t.pointers);
    var k := 0;
    while k < |t.pointers|
      invariant 0 <= k <= |t.pointers| && Found(ts, t.pointers, k) && Patched(m0, m, t, at, k)
    {
      var s := FirstOf(ts, t.pointers[k].sig, 0);
      if s == |ts| {
        return false, m;
      }
      m := PatchNext(m0, m, t, at, k, BASE + ts[s].off);
      k := k + 1;
    }
    ok := true;
  }

  /** The loop over a table's checksums. */
  method ChecksumPass(m0: seq<Byte>, t: Table) returns (m: seq<Byte>)
    requires WellFormed(t) && t.End() <= |m0|
    ensures Outside(m0, m, t.off, t.End())
    ensures Image(m, t) == WithChecksums(Image(m0, t), t.checksums, |t.checksums|)
  {
    m := m0;
    var k := 0;
    while k < |t.checksums|
      invariant 0 <= k <= |t.checksums| && Outside(m0, m, t.off, t.End())
      invariant Image(m, t) == WithChecksums(Image(m0, t), t.checksums, k)
    {
      var m' := PatchChecksum(m, t, t.checksums[k]);
      OutsideTrans(m0, m, m', t.off, t.End());
      m, k := m', k + 1;
    }
  }

  /** One checksum. */
  method PatchChecksum(m: seq<Byte>, t: Table, c: Checksum) returns (m': seq<Byte>)
    requires t.End() <= |m| && ChecksumIn(c, |t.data|)
    ensures Outside(m, m', t.off, t.End()) && Image(m', t) == SetChecksum(Image(m, t), c)
  {
    var sum := SumUp(m[t.off + c.start..t.off + c.start + Span(c, |t.data|)]);
    SumOne(m, t, c);
    m' := m[t.off + c.start + c.off := Negated(sum)];
  }

  /** The summing loop, in 8 bits. */
  method SumUp(bs: seq<Byte>) returns (sum: Byte)
    ensures sum == Sum(bs) % 256
  {
    sum := 0;
    var i := 0;
    while i < |bs|
      invariant 0 <= i <= |bs| && sum == Sum(bs[..i]) % 256
    {
      assert bs[..i + 1][..i] == bs[..i];
      sum := (sum + bs[i]) % 256;
      i := i + 1;
    }
    assert bs[..i] == bs;
  }

  lemma {:induction false} PatchOne(m: seq<Byte>, t: Table, p: Pointer, a: nat)
    requires t.End() <= |m| && p.off + p.size <= |t.data|
    ensures var m' := Put(m, t.off + p.off, Enc(Dec(m[t.off + p.off..t.off + p.off + p.size]) + a, p.size));
            Outside(m, m', t.off, t.End()) && Image(m', t) == AddPointer(Image(m, t), p, a)
  {
    var val := Enc(Dec(m[t.off + p.off..t.off + p.off + p.size]) + a, p.size);
    SubSlice(m, t.off, t.End(), p.off, p.off + p.size);
    assert AddPointer(Image(m, t), p, a) == Put(Image(m, t), p.off, val);
    PutInside(m, t.off, |t.data|, p.off, val);
    assert Outside(m, Put(m, t.off + p.off, val), t.off, t.End()) by {
      PutOutside(m, t.off + p.off, val);
    }
  }

  lemma {:induction false} NegatedMod(s: nat)
    ensures Negated(s % 256) == Negated(s)
  {
  }

  lemma {:induction false} ByteInside(m: seq<Byte>, t: Table, x: nat, b: Byte)
    requires t.End() <= |m| && x < |t.data|
    ensures var m' := m[t.off + x := b]; Outside(m, m', t.off, t.End()) && Image(m', t) == Image(m, t)[x := b]
  {
  }

  lemma {:induction false} SumOne(m: seq<Byte>, t: Table, c: Checksum)
    requires t.End() <= |m| && ChecksumIn(c, |t.data|)
    ensures var m' := m[t.off + c.start + c.off := Negated(Sum(m[t.off + c.start..t.off + c.start + Span(c, |t.data|)]) % 256)];
            Outside(m, m', t.off, t.End()) && Image(m', t) == SetChecksum(Image(m, t), c)
  {
    var n := Span(c, |t.data|);
    var sum := Sum(m[t.off + c.start..t.off + c.start + n]);
    assert Sum(Region(Image(m, t), c)) == sum by {
      SubSlice(m, t.off, t.End(), c.start, c.start + n);
    }
    NegatedMod(sum);
    ByteInside(m, t, Spot(c), Negated(sum));
  }

  lemma {:induction false} InstallStep(ts0: seq<Table>, ts: seq<Table>, ts': seq<Table>, m0: seq<Byte>, m: seq<Byte>, m': seq<Byte>, k: nat, off: nat)
    requires Usable(ts0) && BASE + |m| <= WORD && k < |ts| && Installed(ts0, ts, m, k, off) && Outside(m0, m, 0, off)
    requires var t := Sized(ts0[k]).(off := RoundUp(off, ts0[k].alignment));
             ts' == ts[k := t] && t.End() <= |m| && m' == Put(m, t.off, t.data) && t.off < t.End() % WORD
    ensures Installed(ts0, ts', m', k + 1, ts'[k].End()) && ts'[k].End() % WORD == ts'[k].End()
    ensures Outside(m0, m', 0, ts'[k].End()) && |m'| == |m|
  {
    var t := ts'[k];
    RoundUpExact(off, t.alignment);
    BaseAligned(t.off, t.alignment);
    SmallMod(t.End(), WORD);
    PutOutside(m, t.off, t.data);
    PutField(m, t.off, t.data);
    InstallKeeps(ts, m, m', t, k, off);
  }

  /** The tables already in place stay. */
  lemma {:induction false} InstallKeeps(ts: seq<Table>, m: seq<Byte>, m': seq<Byte>, t: Table, k: nat, off: nat)
    requires Laid(ts, k, off) && off <= |m| && off <= t.off && Outside(m, m', t.off, t.End())
    ensures forall i :: 0 <= i < k ==> m'[ts[i].off..ts[i].End()] == m[ts[i].off..ts[i].End()]
  {
    forall i | 0 <= i < k ensures m'[ts[i].off..ts[i].End()] == m[ts[i].off..ts[i].End()] {
      SliceOutside(m, m', t.off, t.End(), ts[i].off, ts[i].End());
    }
  }

  /** Patching one table leaves the others alone. */
  lemma {:induction false} PatchStays(m0: seq<Byte>, m: seq<Byte>, m': seq<Byte>, ts: seq<Table>, k: nat, end: nat)
    requires k < |ts| && ts[k].End() <= end <= |m| && Outside(m0, m, 0, end) && Outside(m, m', ts[k].off, ts[k].End())
    ensures Outside(m0, m', 0, end)
  {
  }

  lemma {:induction false} PatchStep(ts: seq<Table>, m: seq<Byte>, m1: seq<Byte>, m': seq<Byte>, k: nat, end: nat)
    requires Laid(ts, |ts|, end) && end <= |m| && k < |ts| && Outside(m, m', ts[k].off, ts[k].End()) && HalfDone(ts, m, k)
    requires |m1| == |m| && WellFormed(ts[k]) && Found(ts, ts[k].pointers, |ts[k].pointers|)
    requires Image(m1, ts[k]) == WithPointers(Image(m, ts[k]), ts[k].pointers, Addresses(ts, ts[k].pointers), |ts[k].pointers|)
    requires Image(m', ts[k]) == WithChecksums(Image(m1, ts[k]), ts[k].checksums, |ts[k].checksums|)
    ensures HalfDone(ts, m', k + 1)
  {
    assert Waiting(ts, m, k);
    assert Finished(ts, m', k);
    forall i | 0 <= i < k ensures Finished(ts, m', i) {
      assert Finished(ts, m, i);
      SliceOutside(m, m', ts[k].off, ts[k].End(), ts[i].off, ts[i].End());
    }
    forall i | k < i < |ts| ensures Waiting(ts, m', i) {
      assert Waiting(ts, m, i);
      SliceOutside(m, m', ts[k].off, ts[k].End(), ts[i].off, ts[i].End());
    }
  }

  // What the guest finds

  lemma {:induction false} CompleteAt(ts0: seq<Table>, ts: seq<Table>, m: seq<Byte>, end: nat, i: nat)
    requires Complete(ts0, ts, m, end) && i < |ts|
    ensures WellFormed(ts0[i]) && ts[i].End() <= |m| && ts[i] == Sized(ts0[i]).(off := ts[i].off)
    ensures Found(ts, ts0[i].pointers, |ts0[i].pointers|)
    ensures Image(m, ts[i]) == Final(Sized(ts0[i]), Addresses(ts, ts0[i].pointers))
  {
    assert Finished(ts, m, i);
  }

  /** Field f of a table's bytes holds the address of the first table with the signature it names. */
  predicate PointsRight(ts: seq<Table>, image: seq<Byte>, f: Pointer) {
    var s := FirstOf(ts, f.sig, 0);
    s < |ts| && f.off + f.size <= |image| && Field(image, f) == Enc(0xf2400 + ts[s].off, f.size)
  }

  lemma {:induction false} PointerRight(t: Table, ts: seq<Table>, image: seq<Byte>, f: Pointer, p: nat)
    requires WellFormed(t) && Tidy(t) && p < |t.pointers| && f == t.pointers[p] && Found(ts, t.pointers, |t.pointers|)
    requires image == Final(Sized(t), Addresses(ts, t.pointers))
    ensures PointsRight(ts, image, f)
  {
    FinalPointers(t, Addresses(ts, t.pointers), p);
  }

  /** Every pointer field does. */
  lemma {:induction false} PointersRight(ts0: seq<Table>, ts: seq<Table>, m: seq<Byte>, end: nat, i: nat, p: nat)
    requires Complete(ts0, ts, m, end) && i < |ts| && p < |ts[i].pointers| && Tidy(ts0[i])
    ensures ts[i].End() <= |m| && PointsRight(ts, Image(m, ts[i]), ts[i].pointers[p])
  {
    CompleteAt(ts0, ts, m, end, i);
    PointerRight(ts0[i], ts, Image(m, ts[i]), ts[i].pointers[p], p);
  }

  /** Every checksummed region sums to zero. */
  lemma {:induction false} ChecksumsRight(ts0: seq<Table>, ts: seq<Table>, m: seq<Byte>, end: nat, i: nat, c: nat)
    requires Complete(ts0, ts, m, end) && i < |ts| && c < |ts[i].checksums| && Tidy(ts0[i])
    ensures ts[i].End() <= |m| && ChecksumIn(ts[i].checksums[c], |ts[i].data|)
    ensures Sum(Region(Image(m, ts[i]), ts[i].checksums[c])) % 256 == 0
  {
    CompleteAt(ts0, ts, m, end, i);
    FinalChecksums(ts0[i], Addresses(ts, ts0[i].pointers), c);
  }

  /** Length field f of a table's bytes holds their number. */
  predicate LengthRight(image: seq<Byte>, f: Length) {
    f.off + f.size <= |image| && Dec(image[f.off..f.off + f.size]) == |image|
  }

  lemma {:induction false} LengthField(t: Table, at: seq<nat>, image: seq<Byte>, f: Length, l: nat)
    requires WellFormed(t) && Tidy(t) && l < |t.lengths| && f == t.lengths[l] && |t.data| < Pow256(f.size)
    requires |at| == |t.pointers| && image == Final(Sized(t), at)
    ensures LengthRight(image, f)
  {
    FinalLengths(t, at, l);
    FitsBack(|t.data|, f.size);
  }

  /** Every length field does, if the length fits. */
  lemma {:induction false} LengthsRight(ts0: seq<Table>, ts: seq<Table>, m: seq<Byte>, end: nat, i: nat, l: nat)
    requires Complete(ts0, ts, m, end) && i < |ts| && l < |ts[i].lengths| && Tidy(ts0[i]) && |ts[i].data| < Pow256(ts[i].lengths[l].size)
    ensures ts[i].End() <= |m| && LengthRight(Image(m, ts[i]), ts[i].lengths[l])
  {
    CompleteAt(ts0, ts, m, end, i);
    LengthField(ts0[i], Addresses(ts, ts0[i].pointers), Image(m, ts[i]), ts[i].lengths[l], l);
  }
}
