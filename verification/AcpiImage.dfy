/** What patching lengths, pointers and checksums does to the bytes of one table. */
module AcpiImage {
  import opened Common
  import opened AcpiBytes

  const BASE: nat := 0xf2400
  const FULL_TABLE: nat := 0xffff_ffff

  datatype Checksum = Checksum(off: nat, start: nat, len: nat)
  datatype Length = Length(off: nat, size: nat)
  datatype Pointer = Pointer(sig: seq<Byte>, off: nat, size: nat)

  /** `struct basl_table`. */
  datatype Table = Table(data: seq<Byte>, off: nat, alignment: nat, checksums: seq<Checksum>, lengths: seq<Length>, pointers: seq<Pointer>) {
    function End(): nat { off + |data| }
    /** `header->Signature`. */
    function Sig(): seq<Byte> { if |data| < 4 then data else data[..4] }
  }

  /** What the patching passes assert about their records. */
  predicate LengthsIn(ls: seq<Length>, n: nat) {
    forall i :: 0 <= i < |ls| ==> ls[i].off + ls[i].size <= n
  }

  predicate PointersIn(ps: seq<Pointer>, n: nat) {
    forall i :: 0 <= i < |ps| ==> ps[i].off + ps[i].size <= n
  }

  function Span(c: Checksum, n: nat): nat { if c.len == FULL_TABLE then n else c.len }

  /** Where the checksum goes: its offset counts from the start of the summed region. */
  function Spot(c: Checksum): nat { c.start + c.off }

  predicate ChecksumIn(c: Checksum, n: nat) {
    c.off < n && c.start < n && c.start + Span(c, n) <= n && Spot(c) < n
  }

  function Region(bs: seq<Byte>, c: Checksum): seq<Byte>
    requires ChecksumIn(c, |bs|)
  {
    bs[c.start..c.start + Span(c, |bs|)]
  }

  predicate ChecksumsIn(cs: seq<Checksum>, n: nat) {
    forall i :: 0 <= i < |cs| ==> ChecksumIn(cs[i], n)
  }

  predicate WellFormed(t: Table) {
    LengthsIn(t.lengths, |t.data|) && PointersIn(t.pointers, |t.data|) && ChecksumsIn(t.checksums, |t.data|)
  }

  // The three passes, record by record

  /** After the first k length fields. */
  function WithLengths(bs: seq<Byte>, ls: seq<Length>, k: nat): (r: seq<Byte>)
    requires k <= |ls| && LengthsIn(ls, |bs|)
    ensures |r| == |bs|
  {
    if k == 0 then bs else Put(WithLengths(bs, ls, k - 1), ls[k - 1].off, Enc(|bs|, ls[k - 1].size))
  }

  /** After the first k pointer fields; `at` gives the address each of them refers to. */
  function WithPointers(bs: seq<Byte>, ps: seq<Pointer>, at: seq<nat>, k: nat): (r: seq<Byte>)
    requires k <= |ps| == |at| && PointersIn(ps, |bs|)
    ensures |r| == |bs|
  {
    if k == 0 then bs else AddPointer(WithPointers(bs, ps, at, k - 1), ps[k - 1], at[k - 1])
  }

  function AddPointer(bs: seq<Byte>, p: Pointer, a: nat): (r: seq<Byte>)
    requires p.off + p.size <= |bs|
    ensures |r| == |bs|
  {
    Put(bs, p.off, Enc(Dec(bs[p.off..p.off + p.size]) + a, p.size))
  }

  /** After the first k checksums. */
  function WithChecksums(bs: seq<Byte>, cs: seq<Checksum>, k: nat): (r: seq<Byte>)
    requires k <= |cs| && ChecksumsIn(cs, |bs|)
    ensures |r| == |bs|
  {
    if k == 0 then bs else SetChecksum(WithChecksums(bs, cs, k - 1), cs[k - 1])
  }

  function Negated(sum: nat): Byte { (256 - sum % 256) % 256 }

  function SetChecksum(bs: seq<Byte>, c: Checksum): (r: seq<Byte>)
    requires ChecksumIn(c, |bs|)
    ensures |r| == |bs|
  {
    bs[Spot(c) := Negated(Sum(Region(bs, c)))]
  }

  // What each pass achieves

  /** A checksum comes out right exactly when its byte was zero before: the sum it is computed from
      includes that byte. */
  lemma {:induction false} ChecksumExact(bs: seq<Byte>, c: Checksum)
    requires ChecksumIn(c, |bs|) && c.off < Span(c, |bs|)
    ensures Sum(Region(SetChecksum(bs, c), c)) % 256 == 0 <==> bs[Spot(c)] == 0
  {
    var region := Region(bs, c);
    var b := Negated(Sum(region));
    assert Region(SetChecksum(bs, c), c) == region[c.off := b];
    SumUpdate(region, c.off, b);
    NegatedSum(Sum(region), region[c.off]);
  }

  lemma {:induction false} NegatedSum(s: nat, was: Byte)
    ensures (s - was + Negated(s)) % 256 == 0 <==> was == 0
  {
  }

  predicate Beyond(x: nat, c: Checksum, n: nat) { x < c.start || c.start + Span(c, n) <= x }

  /** Checksum bytes start at zero, and none lies in the region of an earlier one. */
  predicate Independent(bs: seq<Byte>, cs: seq<Checksum>)
    requires ChecksumsIn(cs, |bs|)
  {
    && (forall i :: 0 <= i < |cs| ==> bs[Spot(cs[i])] == 0 && cs[i].off < Span(cs[i], |bs|))
    && (forall i, j :: 0 <= i < j < |cs| ==> Beyond(Spot(cs[j]), cs[i], |bs|))
  }

  /** Then all of them hold at once. */
  lemma {:induction false} AllChecksums(bs: seq<Byte>, cs: seq<Checksum>, k: nat, i: nat)
    requires ChecksumsIn(cs, |bs|) && Independent(bs, cs) && i < k <= |cs|
    ensures Sum(Region(WithChecksums(bs, cs, k), cs[i])) % 256 == 0
  {
    if i == k - 1 {
      LastChecksum(bs, cs, k);
    } else {
      AllChecksums(bs, cs, k - 1, i);
      assert Beyond(Spot(cs[k - 1]), cs[i], |bs|);
      ChecksumBeyond(WithChecksums(bs, cs, k - 1), cs[k - 1], cs[i]);
    }
  }

  lemma {:induction false} LastChecksum(bs: seq<Byte>, cs: seq<Checksum>, k: nat)
    requires ChecksumsIn(cs, |bs|) && Independent(bs, cs) && 0 < k <= |cs|
    ensures Sum(Region(WithChecksums(bs, cs, k), cs[k - 1])) % 256 == 0
  {
    var c := cs[k - 1];
    forall j | 0 <= j < k - 1 ensures Spot(cs[j]) != Spot(c) {
      assert Beyond(Spot(c), cs[j], |bs|);
    }
    ChecksumUntouched(bs, cs, k - 1, Spot(c));
    ChecksumExact(WithChecksums(bs, cs, k - 1), c);
  }

  lemma {:induction false} ChecksumBeyond(bs: seq<Byte>, c: Checksum, d: Checksum)
    requires ChecksumIn(c, |bs|) && ChecksumIn(d, |bs|) && Beyond(Spot(c), d, |bs|)
    ensures Region(SetChecksum(bs, c), d) == Region(bs, d)
  {
  }

  /** Bytes that are no checksum byte keep their value; a later checksum's byte is still zero. */
  lemma {:induction false} ChecksumUntouched(bs: seq<Byte>, cs: seq<Checksum>, k: nat, x: nat)
    requires ChecksumsIn(cs, |bs|) && k <= |cs| && x < |bs| && forall i :: 0 <= i < k ==> Spot(cs[i]) != x
    ensures WithChecksums(bs, cs, k)[x] == bs[x]
  {
    if k > 0 {
      ChecksumUntouched(bs, cs, k - 1, x);
    }
  }

  predicate Apart(p: Pointer, q: Pointer) { p.off + p.size <= q.off || q.off + q.size <= p.off }

  predicate FieldsApart(ps: seq<Pointer>) {
    forall i, j :: 0 <= i < j < |ps| ==> Apart(ps[i], ps[j])
  }

  /** The bytes of a field. */
  function Field(bs: seq<Byte>, p: Pointer): seq<Byte>
    requires p.off + p.size <= |bs|
  {
    bs[p.off..p.off + p.size]
  }

  lemma {:induction false} AddPointerApart(bs: seq<Byte>, p: Pointer, a: nat, q: Pointer)
    requires p.off + p.size <= |bs| && q.off + q.size <= |bs| && Apart(p, q)
    ensures Field(AddPointer(bs, p, a), q) == Field(bs, q)
  {
    PutApart(bs, p.off, Enc(Dec(Field(bs, p)) + a, p.size), q.off, q.off + q.size);
  }

  lemma {:induction false} AddPointerValue(bs: seq<Byte>, p: Pointer, a: nat)
    requires p.off + p.size <= |bs|
    ensures Field(AddPointer(bs, p, a), p) == Enc(Dec(Field(bs, p)) + a, p.size)
  {
    PutField(bs, p.off, Enc(Dec(Field(bs, p)) + a, p.size));
  }

  lemma {:induction false} PutField(bs: seq<Byte>, off: nat, field: seq<Byte>)
    requires off + |field| <= |bs|
    ensures Put(bs, off, field)[off..off + |field|] == field
  {
  }

  lemma {:induction false} PointerUntouched(bs: seq<Byte>, ps: seq<Pointer>, at: seq<nat>, k: nat, q: Pointer)
    requires k <= |ps| == |at| && PointersIn(ps, |bs|) && q.off + q.size <= |bs|
    requires forall i :: 0 <= i < k ==> Apart(ps[i], q)
    ensures Field(WithPointers(bs, ps, at, k), q) == Field(bs, q)
  {
    if k > 0 {
      PointerUntouched(bs, ps, at, k - 1, q);
      AddPointerApart(WithPointers(bs, ps, at, k - 1), ps[k - 1], at[k - 1], q);
    }
  }

  lemma {:induction false} LastPointer(bs: seq<Byte>, ps: seq<Pointer>, at: seq<nat>, k: nat)
    requires 0 < k <= |ps| == |at| && PointersIn(ps, |bs|) && FieldsApart(ps)
    ensures var p := ps[k - 1]; Field(WithPointers(bs, ps, at, k), p) == Enc(Dec(Field(bs, p)) + at[k - 1], p.size)
  {
    PointerUntouched(bs, ps, at, k - 1, ps[k - 1]);
    AddPointerValue(WithPointers(bs, ps, at, k - 1), ps[k - 1], at[k - 1]);
  }

  lemma {:induction false} EarlierPointer(bs: seq<Byte>, ps: seq<Pointer>, at: seq<nat>, k: nat, i: nat)
    requires i < k - 1 < |ps| == |at| && PointersIn(ps, |bs|) && FieldsApart(ps)
    ensures Field(WithPointers(bs, ps, at, k), ps[i]) == Field(WithPointers(bs, ps, at, k - 1), ps[i])
  {
    assert Apart(ps[i], ps[k - 1]);
    AddPointerApart(WithPointers(bs, ps, at, k - 1), ps[k - 1], at[k - 1], ps[i]);
  }

  lemma {:induction false} PointerBytes(bs: seq<Byte>, ps: seq<Pointer>, at: seq<nat>, k: nat, i: nat)
    requires i < k <= |ps| == |at| && PointersIn(ps, |bs|) && FieldsApart(ps)
    ensures Field(WithPointers(bs, ps, at, k), ps[i]) == Enc(Dec(Field(bs, ps[i])) + at[i], ps[i].size)
  {
    if i == k - 1 {
      LastPointer(bs, ps, at, k);
    } else {
      PointerBytes(bs, ps, at, k - 1, i);
      EarlierPointer(bs, ps, at, k, i);
    }
  }

  /** Every pointer field that was blank ends up holding the address it refers to. */
  lemma {:induction false} AllPointers(bs: seq<Byte>, ps: seq<Pointer>, at: seq<nat>, i: nat)
    requires i < |ps| == |at| && PointersIn(ps, |bs|) && FieldsApart(ps) && Blank(Field(bs, ps[i]))
    ensures Field(WithPointers(bs, ps, at, |ps|), ps[i]) == Enc(at[i], ps[i].size)
  {
    DecBlank(Field(bs, ps[i]));
    PointerBytes(bs, ps, at, |ps|, i);
  }

  // The finished table

  predicate Clear(lo: nat, n: nat, p: Pointer) { lo + n <= p.off || p.off + p.size <= lo }

  predicate LengthsApart(ls: seq<Length>) {
    forall i, j :: 0 <= i < j < |ls| ==> ls[i].off + ls[i].size <= ls[j].off || ls[j].off + ls[j].size <= ls[i].off
  }

  /** The records of a table do not overlap, and what is to be patched starts out blank. */
  ghost predicate Tidy(t: Table)
    requires WellFormed(t)
  {
    && FieldsApart(t.pointers)
    && (forall i :: 0 <= i < |t.pointers| ==> Blank(Field(t.data, t.pointers[i])))
    && (forall l, i :: 0 <= l < |t.lengths| && 0 <= i < |t.pointers| ==> Clear(t.lengths[l].off, t.lengths[l].size, t.pointers[i]))
    && (forall c, i :: 0 <= c < |t.checksums| && 0 <= i < |t.pointers| ==> Clear(Spot(t.checksums[c]), 1, t.pointers[i]))
    && (forall c, l :: 0 <= c < |t.checksums| && 0 <= l < |t.lengths| ==>
          !(t.lengths[l].off <= Spot(t.checksums[c]) < t.lengths[l].off + t.lengths[l].size))
    && LengthsApart(t.lengths)
    && Independent(t.data, t.checksums)
  }

  /** The table once its lengths are set, and as it stands in memory at the end. */
  function Sized(t: Table): (r: Table)
    requires WellFormed(t)
    ensures WellFormed(r) && |r.data| == |t.data|
  {
    t.(data := WithLengths(t.data, t.lengths, |t.lengths|))
  }

  function Final(t: Table, at: seq<nat>): (r: seq<Byte>)
    requires WellFormed(t) && |at| == |t.pointers|
    ensures |r| == |t.data|
  {
    WithChecksums(WithPointers(t.data, t.pointers, at, |at|), t.checksums, |t.checksums|)
  }

  lemma {:induction false} LengthUntouched(bs: seq<Byte>, ls: seq<Length>, k: nat, x: nat)
    requires k <= |ls| && LengthsIn(ls, |bs|) && x < |bs| && forall i :: 0 <= i < k ==> !(ls[i].off <= x < ls[i].off + ls[i].size)
    ensures WithLengths(bs, ls, k)[x] == bs[x]
  {
    if k > 0 {
      LengthUntouched(bs, ls, k - 1, x);
    }
  }

  /** Setting the lengths leaves the fields still to be patched blank. */
  lemma {:induction false} SizedBlank(t: Table, i: nat)
    requires WellFormed(t) && Tidy(t) && i < |t.pointers|
    ensures Blank(Field(Sized(t).data, t.pointers[i]))
  {
    var p := t.pointers[i];
    forall x | 0 <= x < p.size ensures Field(Sized(t).data, p)[x] == 0 {
      forall l | 0 <= l < |t.lengths| ensures !(t.lengths[l].off <= p.off + x < t.lengths[l].off + t.lengths[l].size) {
        assert Clear(t.lengths[l].off, t.lengths[l].size, p);
      }
      LengthUntouched(t.data, t.lengths, |t.lengths|, p.off + x);
      assert Field(t.data, p)[x] == 0;
    }
  }

  /** In the finished table every pointer field holds the address given for it. */
  lemma {:induction false} FinalPointers(t: Table, at: seq<nat>, i: nat)
    requires WellFormed(t) && Tidy(t) && |at| == |t.pointers| && i < |at|
    ensures Field(Final(Sized(t), at), t.pointers[i]) == Enc(at[i], t.pointers[i].size)
  {
    var p, u := t.pointers[i], Sized(t);
    SizedBlank(t, i);
    AllPointers(u.data, u.pointers, at, i);
    forall c | 0 <= c < |t.checksums| ensures Misses(t.checksums[c], p) {
      assert Clear(Spot(t.checksums[c]), 1, p);
    }
    ChecksumsKeep(WithPointers(u.data, u.pointers, at, |at|), t.checksums, p);
  }

  predicate Misses(c: Checksum, q: Pointer) { !(q.off <= Spot(c) < q.off + q.size) }

  /** A field without a checksum byte in it stays. */
  lemma {:induction false} ChecksumsKeep(bs: seq<Byte>, cs: seq<Checksum>, q: Pointer)
    requires ChecksumsIn(cs, |bs|) && q.off + q.size <= |bs| && forall c :: 0 <= c < |cs| ==> Misses(cs[c], q)
    ensures Field(WithChecksums(bs, cs, |cs|), q) == Field(bs, q)
  {
    var r := WithChecksums(bs, cs, |cs|);
    forall x | q.off <= x < q.off + q.size ensures r[x] == bs[x] {
      forall c | 0 <= c < |cs| ensures Spot(cs[c]) != x {
        assert Misses(cs[c], q);
      }
      ChecksumUntouched(bs, cs, |cs|, x);
    }
  }

  lemma {:induction false} LengthBytes(bs: seq<Byte>, ls: seq<Length>, k: nat, i: nat)
    requires i < k <= |ls| && LengthsIn(ls, |bs|) && LengthsApart(ls)
    ensures WithLengths(bs, ls, k)[ls[i].off..ls[i].off + ls[i].size] == Enc(|bs|, ls[i].size)
  {
    var l, prev := ls[k - 1], WithLengths(bs, ls, k - 1);
    if i == k - 1 {
      PutField(prev, l.off, Enc(|bs|, l.size));
    } else {
      LengthBytes(bs, ls, k - 1, i);
      assert ls[i].off + ls[i].size <= l.off || l.off + l.size <= ls[i].off;
      PutApart(prev, l.off, Enc(|bs|, l.size), ls[i].off, ls[i].off + ls[i].size);
    }
  }

  lemma {:induction false} PutApart(bs: seq<Byte>, off: nat, field: seq<Byte>, lo: nat, hi: nat)
    requires off + |field| <= |bs| && lo <= hi <= |bs| && (hi <= off || off + |field| <= lo)
    ensures Put(bs, off, field)[lo..hi] == bs[lo..hi]
  {
  }

  /** Every length field holds the length. */
  lemma {:induction false} FinalLengths(t: Table, at: seq<nat>, i: nat)
    requires WellFormed(t) && Tidy(t) && |at| == |t.pointers| && i < |t.lengths|
    ensures Final(Sized(t), at)[t.lengths[i].off..t.lengths[i].off + t.lengths[i].size] == Enc(|t.data|, t.lengths[i].size)
  {
    var l, u := t.lengths[i], Sized(t);
    var q := Pointer([], l.off, l.size);
    LengthClear(t, i, q);
    assert Field(u.data, q) == Enc(|t.data|, l.size) by {
      LengthBytes(t.data, t.lengths, |t.lengths|, i);
    }
    var bs := WithPointers(u.data, u.pointers, at, |at|);
    assert Field(bs, q) == Field(u.data, q) by {
      PointerUntouched(u.data, u.pointers, at, |at|, q);
    }
    assert Field(Final(u, at), q) == Field(bs, q) by {
      ChecksumsKeep(bs, t.checksums, q);
    }
  }

  lemma {:induction false} LengthClear(t: Table, i: nat, q: Pointer)
    requires WellFormed(t) && Tidy(t) && i < |t.lengths| && q.off == t.lengths[i].off && q.size == t.lengths[i].size
    ensures forall p :: 0 <= p < |t.pointers| ==> Apart(t.pointers[p], q)
    ensures forall c :: 0 <= c < |t.checksums| ==> Misses(t.checksums[c], q)
  {
    forall p | 0 <= p < |t.pointers| ensures Apart(t.pointers[p], q) {
      assert Clear(t.lengths[i].off, t.lengths[i].size, t.pointers[p]);
    }
  }

  /** And every checksum holds. */
  lemma {:induction false} FinalChecksums(t: Table, at: seq<nat>, i: nat)
    requires WellFormed(t) && Tidy(t) && |at| == |t.pointers| && i < |t.checksums|
    ensures Sum(Region(Final(Sized(t), at), t.checksums[i])) % 256 == 0
  {
    var u := Sized(t);
    var bs := WithPointers(u.data, u.pointers, at, |at|);
    forall c | 0 <= c < |t.checksums| ensures bs[Spot(t.checksums[c])] == 0 {
      ChecksumBlank(t, at, c);
    }
    AllChecksums(bs, t.checksums, |t.checksums|, i);
  }

  lemma {:induction false} ChecksumBlank(t: Table, at: seq<nat>, c: nat)
    requires WellFormed(t) && Tidy(t) && |at| == |t.pointers| && c < |t.checksums|
    ensures WithPointers(Sized(t).data, t.pointers, at, |at|)[Spot(t.checksums[c])] == 0
  {
    var x := Spot(t.checksums[c]);
    LengthUntouched(t.data, t.lengths, |t.lengths|, x);
    var q := Pointer([], x, 1);
    forall i | 0 <= i < |t.pointers| ensures Apart(t.pointers[i], q) {
      assert Clear(x, 1, t.pointers[i]);
    }
    var bs := WithPointers(Sized(t).data, t.pointers, at, |at|);
    PointerUntouched(Sized(t).data, t.pointers, at, |at|, q);
    assert Field(bs, q)[0] == Field(Sized(t).data, q)[0];
  }
}
