/** Building tables: what the append functions keep true of a table, so that `basl_finish` patches it
    correctly, and what that means for the RSDT, the XSDT and the RSDP. */
module AcpiBuild {
  import opened Common
  import opened AcpiBytes
  import opened AcpiImage
  import opened AcpiFinish

  const HEADER_LEN: nat := 36

  /** A table that starts with a header of `basl_table_append_header`: its length and checksum are
      recorded, and its other records are blank pointer fields behind the header. */
  ghost predicate Headed(t: Table) {
    && HEADER_LEN <= |t.data| < WORD
    && t.checksums == [Checksum(9, 0, FULL_TABLE)] && t.lengths == [Length(4, 4)] && t.data[9] == 0
    && PointersIn(t.pointers, |t.data|) && FieldsApart(t.pointers)
    && (forall i :: 0 <= i < |t.pointers| ==> HEADER_LEN <= t.pointers[i].off && Blank(Field(t.data, t.pointers[i])))
  }

  lemma {:induction false} HeadedTidy(t: Table)
    requires Headed(t)
    ensures WellFormed(t) && Tidy(t)
  {
  }

  function Appended(t: Table, bytes: seq<Byte>): Table { t.(data := t.data + bytes) }

  function Pointed(t: Table, p: Pointer): Table { t.(pointers := t.pointers + [p]) }

  lemma {:induction false} AppendedHeaded(t: Table, bytes: seq<Byte>)
    requires Headed(t) && |t.data| + |bytes| < WORD
    ensures Headed(Appended(t, bytes))
  {
    var u := Appended(t, bytes);
    forall i | 0 <= i < |u.pointers| ensures Blank(Field(u.data, u.pointers[i])) {
      var p := t.pointers[i];
      assert Field(u.data, p) == Field(t.data, p);
    }
  }

  lemma {:induction false} PointedHeaded(t: Table, p: Pointer)
    requires Headed(t) && HEADER_LEN <= p.off && p.off + p.size <= |t.data| && Blank(Field(t.data, p))
    requires forall i :: 0 <= i < |t.pointers| ==> Apart(t.pointers[i], p)
    ensures Headed(Pointed(t, p))
  {
  }

  /** The header, with length and checksum still zero. */
  function Header(sig: seq<Byte>, revision: Byte, rest: seq<Byte>): seq<Byte>
    requires |sig| == 4 && |rest| == 26
  {
    sig + [0, 0, 0, 0, revision, 0] + rest
  }

  lemma {:induction false} FreshHeaded(t: Table, sig: seq<Byte>, revision: Byte, rest: seq<Byte>)
    requires t.data == [] && t.checksums == [] && t.lengths == [] && t.pointers == [] && |sig| == 4 && |rest| == 26
    ensures var u := t.(data := Header(sig, revision, rest), lengths := [Length(4, 4)], checksums := [Checksum(9, 0, FULL_TABLE)]);
            Headed(u) && u.Sig() == sig
  {
    var h := Header(sig, revision, rest);
    assert h[..4] == sig && h[9] == 0;
  }

  /** `basl_table_append_bytes`; the length is 32 bits wide. */
  method AppendBytes(b: Basl, i: nat, bytes: seq<Byte>) returns (ok: bool)
    requires i < |b.tables| && |b.tables[i].data| < WORD && |bytes| < WORD
    modifies b`tables
    ensures ok <==> bytes != [] && |old(b.tables)[i].data| + |bytes| < WORD
    ensures b.tables == if ok then old(b.tables)[i := Appended(old(b.tables)[i], bytes)] else old(b.tables)
  {
    var t := b.tables[i];
    if (|t.data| + |bytes|) % WORD <= |t.data| {
      return false;
    }
    b.tables := b.tables[i := Appended(t, bytes)];
    ok := true;
  }

  /** `basl_table_append_header`; `rest` are the OEM and compiler fields. */
  method AppendHeader(b: Basl, i: nat, sig: seq<Byte>, revision: Byte, rest: seq<Byte>) returns (ok: bool)
    requires i < |b.tables| && |sig| == 4 && |rest| == 26
    requires var t := b.tables[i]; t.data == [] && t.checksums == [] && t.lengths == [] && t.pointers == []
    modifies b`tables
    ensures ok && |b.tables| == |old(b.tables)| && Headed(b.tables[i]) && b.tables[i].Sig() == sig
    ensures b.tables == old(b.tables)[i := b.tables[i]] && b.tables[i].alignment == old(b.tables)[i].alignment && b.tables[i].pointers == []
    ensures |b.tables[i].data| == HEADER_LEN
  {
    FreshHeaded(b.tables[i], sig, revision, rest);
    assert [] + Header(sig, revision, rest) == Header(sig, revision, rest);
    ok := AppendBytes(b, i, Header(sig, revision, rest));
    b.tables := b.tables[i := b.tables[i].(lengths := b.tables[i].lengths + [Length(4, 4)])];
    b.tables := b.tables[i := b.tables[i].(checksums := b.tables[i].checksums + [Checksum(9, 0, FULL_TABLE)])];
  }

  /** `basl_table_append_pointer`: record the field, then append it as zeros. */
  method AppendPointer(b: Basl, i: nat, sig: seq<Byte>, size: nat) returns (ok: bool)
    requires i < |b.tables| && (size == 4 || size == 8) && |b.tables[i].data| < WORD
    modifies b`tables
    ensures |b.tables| == |old(b.tables)| && (ok <==> |old(b.tables)[i].data| + size < WORD)
    ensures var t := old(b.tables)[i]; b.tables == old(b.tables)[i := if ok then WithBlank(t, sig, size) else Pointed(t, Pointer(sig, |t.data|, size))]
    ensures ok && Headed(old(b.tables)[i]) ==> Headed(b.tables[i])
  {
    var t := b.tables[i];
    if Headed(t) && |t.data| + size < WORD {
      BlankHeaded(t, sig, size);
    }
    b.tables := b.tables[i := Pointed(t, Pointer(sig, |t.data|, size))];
    ok := AppendBytes(b, i, Enc(0, size));
  }

  function WithBlank(t: Table, sig: seq<Byte>, size: nat): Table {
    Appended(Pointed(t, Pointer(sig, |t.data|, size)), Enc(0, size))
  }

  lemma {:induction false} EncZero(n: nat)
    ensures Blank(Enc(0, n))
  {
    if n > 0 {
      EncZero(n - 1);
    }
  }

  lemma {:induction false} BlankHeaded(t: Table, sig: seq<Byte>, size: nat)
    requires Headed(t) && |t.data| + size < WORD
    ensures Headed(WithBlank(t, sig, size))
  {
    var p := Pointer(sig, |t.data|, size);
    var u := Appended(t, Enc(0, size));
    EncZero(size);
    AppendedHeaded(t, Enc(0, size));
    assert Field(u.data, p) == Enc(0, size);
    PointedHeaded(u, p);
    assert Pointed(u, p) == WithBlank(t, sig, size);
  }

  // RSDT and XSDT

  /** A table that lists the signatures sigs, each in a field of the given size. */
  ghost predicate Lists(t: Table, size: nat, sigs: seq<seq<Byte>>) {
    && Headed(t) && |t.pointers| == |sigs| && |t.data| == HEADER_LEN + size * |sigs|
    && forall k :: 0 <= k < |sigs| ==> t.pointers[k] == Pointer(sigs[k], HEADER_LEN + size * k, size)
  }

  lemma {:induction false} ListsMore(t: Table, size: nat, sigs: seq<seq<Byte>>, sig: seq<Byte>)
    requires Lists(t, size, sigs) && |t.data| + size < WORD
    ensures Lists(WithBlank(t, sig, size), size, sigs + [sig])
  {
    BlankHeaded(t, sig, size);
    assert size * |sigs + [sig]| == size * |sigs| + size;
  }

  /** `basl_table_register_to_rsdt`: RSDT and XSDT, tables 0 and 1, go on listing the same tables in
      the same order. */
  method RegisterToRsdt(b: Basl, i: nat, ghost sigs: seq<seq<Byte>>)
    requires 2 <= i < |b.tables| && Lists(b.tables[0], 4, sigs) && Lists(b.tables[1], 8, sigs)
    requires |b.tables[0].data| + 4 < WORD && |b.tables[1].data| + 8 < WORD
    modifies b`tables
    ensures |b.tables| == |old(b.tables)| && b.tables[2..] == old(b.tables)[2..]
    ensures Lists(b.tables[0], 4, sigs + [b.tables[i].Sig()]) && Lists(b.tables[1], 8, sigs + [b.tables[i].Sig()])
  {
    var sig := b.tables[i].Sig();
    ListsMore(b.tables[0], 4, sigs, sig);
    ListsMore(b.tables[1], 8, sigs, sig);
    var ok := AppendPointer(b, 0, sig, 4);
    ok := AppendPointer(b, 1, sig, 8);
  }

  /** After `basl_finish` the k-th entries of both are the same address: that of the first table with
      the k-th registered signature. */
  lemma {:induction false} ListsAgree(ts0: seq<Table>, ts: seq<Table>, m: seq<Byte>, end: nat, sigs: seq<seq<Byte>>, k: nat)
    requires Complete(ts0, ts, m, end) && |ts| >= 2 && Lists(ts0[0], 4, sigs) && Lists(ts0[1], 8, sigs) && k < |sigs|
    ensures ts[0].End() <= |m| && ts[1].End() <= |m|
    ensures PointsRight(ts, Image(m, ts[0]), Pointer(sigs[k], HEADER_LEN + 4 * k, 4))
    ensures PointsRight(ts, Image(m, ts[1]), Pointer(sigs[k], HEADER_LEN + 8 * k, 8))
  {
    HeadedTidy(ts0[0]);
    HeadedTidy(ts0[1]);
    CompleteAt(ts0, ts, m, end, 0);
    CompleteAt(ts0, ts, m, end, 1);
    PointersRight(ts0, ts, m, end, 0, k);
    PointersRight(ts0, ts, m, end, 1, k);
  }

  lemma {:induction false} FourBytes()
    ensures Pow256(4) == WORD
  {
    assert Pow256(1) == 256 && Pow256(2) == 0x1_0000 && Pow256(3) == 0x100_0000;
  }

  /** Every table with a generated header sums to zero as a whole and states its length. */
  lemma {:induction false} HeadedSums(ts0: seq<Table>, ts: seq<Table>, m: seq<Byte>, end: nat, i: nat)
    requires Complete(ts0, ts, m, end) && i < |ts| && Headed(ts0[i])
    ensures ts[i].End() <= |m| && Sum(Image(m, ts[i])) % 256 == 0 && LengthRight(Image(m, ts[i]), Length(4, 4))
  {
    HeadedTidy(ts0[i]);
    CompleteAt(ts0, ts, m, end, i);
    ChecksumsRight(ts0, ts, m, end, i, 0);
    assert Region(Image(m, ts[i]), ts[i].checksums[0]) == Image(m, ts[i]);
    FourBytes();
    LengthsRight(ts0, ts, m, end, i, 0);
  }

  // RSDP

  const RSDT_SIG: seq<Byte> := [0x52, 0x53, 0x44, 0x54]
  const XSDT_SIG: seq<Byte> := [0x58, 0x53, 0x44, 0x54]

  /** The RSDP of `acpi.c`: two checksums, over the first 20 bytes and over all 36. */
  ghost predicate IsRsdp(t: Table) {
    && |t.data| == 36 && t.lengths == [Length(20, 4)]
    && t.checksums == [Checksum(8, 0, 20), Checksum(32, 0, FULL_TABLE)]
    && t.pointers == [Pointer(RSDT_SIG, 16, 4), Pointer(XSDT_SIG, 24, 8)]
    && t.data[8] == 0 && t.data[32] == 0 && Blank(t.data[16..20]) && Blank(t.data[24..32])
  }

  lemma {:induction false} RsdpTidy(t: Table)
    requires IsRsdp(t)
    ensures WellFormed(t) && Tidy(t)
  {
    assert Field(t.data, t.pointers[0]) == t.data[16..20] && Field(t.data, t.pointers[1]) == t.data[24..32];
  }

  /** Both of its checksums hold at once. */
  lemma {:induction false} RsdpSums(ts0: seq<Table>, ts: seq<Table>, m: seq<Byte>, end: nat, i: nat)
    requires Complete(ts0, ts, m, end) && i < |ts| && IsRsdp(ts0[i])
    ensures ts[i].End() <= |m| && |ts[i].data| == 36
    ensures Sum(Image(m, ts[i])[..20]) % 256 == 0 && Sum(Image(m, ts[i])) % 256 == 0 && LengthRight(Image(m, ts[i]), Length(20, 4))
    ensures PointsRight(ts, Image(m, ts[i]), Pointer(RSDT_SIG, 16, 4)) && PointsRight(ts, Image(m, ts[i]), Pointer(XSDT_SIG, 24, 8))
  {
    RsdpTidy(ts0[i]);
    CompleteAt(ts0, ts, m, end, i);
    ChecksumsRight(ts0, ts, m, end, i, 0);
    ChecksumsRight(ts0, ts, m, end, i, 1);
    PointersRight(ts0, ts, m, end, i, 0);
    PointersRight(ts0, ts, m, end, i, 1);
    FourBytes();
    LengthsRight(ts0, ts, m, end, i, 0);
    assert Region(Image(m, ts[i]), ts[i].checksums[0]) == Image(m, ts[i])[..20];
    assert Region(Image(m, ts[i]), ts[i].checksums[1]) == Image(m, ts[i]);
  }
}
