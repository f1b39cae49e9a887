/** The bounce-buffer read of the block backend: chunks read from the file are scattered over the
    request's buffers. */
module BounceRead {
  import opened Common

  function Min(a: nat, b: nat): nat { if a < b then a else b }

  /** The buffers laid end to end. */
  function Flat(iov: seq<seq<Byte>>): seq<Byte> {
    if iov == [] then [] else Flat(iov[..|iov| - 1]) + iov[|iov| - 1]
  }

  /** Where buffer i starts. */
  function Start(iov: seq<seq<Byte>>, i: nat): nat
    requires i <= |iov|
  {
    |Flat(iov[..i])|
  }

  /** `preadv`: the first n bytes come from the file, the rest of the buffers is untouched. */
  function Filled(was: seq<Byte>, file: seq<Byte>, at: nat, n: nat): seq<Byte>
    requires n <= |was| && at + n <= |file|
  {
    file[at..at + n] + was[n..]
  }

  lemma FlatStep(iov: seq<seq<Byte>>, i: nat)
    requires i < |iov|
    ensures Start(iov, i + 1) == Start(iov, i) + |iov[i]|
  {
    assert iov[..i + 1][..i] == iov[..i];
  }

  lemma {:induction false} FlatSplit(iov: seq<seq<Byte>>, i: nat)
    requires i <= |iov|
    ensures Flat(iov) == Flat(iov[..i]) + Flat(iov[i..])
  {
    var n := |iov|;
    if i == n {
      assert iov[..i] == iov && iov[i..] == [];
    } else {
      FlatSplit(iov[..n - 1], i);
      assert iov[..n - 1][..i] == iov[..i] && iov[..n - 1][i..] == iov[i..][..n - i - 1];
    }
  }

  lemma FlatAround(iov: seq<seq<Byte>>, i: nat)
    requires i < |iov|
    ensures Flat(iov) == Flat(iov[..i]) + iov[i] + Flat(iov[i + 1..])
  {
    FlatSplit(iov, i + 1);
    assert Flat(iov[..i + 1]) == Flat(iov[..i]) + iov[i] by {
      assert iov[..i + 1][..i] == iov[..i];
    }
  }

  /** The `memcpy` into buffer i at offset voff. */
  function Copied(iov: seq<seq<Byte>>, i: nat, voff: nat, bytes: seq<Byte>): (r: seq<seq<Byte>>)
    requires i < |iov| && voff + |bytes| <= |iov[i]|
    ensures |r| == |iov| && forall k :: 0 <= k < |iov| ==> |r[k]| == |iov[k]|
  {
    iov[i := iov[i][..voff] + bytes + iov[i][voff + |bytes|..]]
  }

  lemma Overwrite(f: seq<Byte>, f': seq<Byte>, a: seq<Byte>, m: seq<Byte>, z: seq<Byte>, voff: nat, bytes: seq<Byte>)
    requires voff + |bytes| <= |m| && f == a + m + z && f' == a + (m[..voff] + bytes + m[voff + |bytes|..]) + z
    ensures var p := |a| + voff; p + |bytes| <= |f| && f' == f[..p] + bytes + f[p + |bytes|..]
  {
    var p := |a| + voff;
    assert f[..p] == a + m[..voff];
    assert f[p + |bytes|..] == m[voff + |bytes|..] + z;
  }

  lemma FlatReplace(iov: seq<seq<Byte>>, i: nat, m: seq<Byte>)
    requires i < |iov|
    ensures Flat(iov[i := m]) == Flat(iov[..i]) + m + Flat(iov[i + 1..])
  {
    var r := iov[i := m];
    FlatAround(r, i);
    assert r[..i] == iov[..i] && r[i + 1..] == iov[i + 1..];
  }

  /** Seen flat, it overwrites one stretch. */
  lemma {:induction false} CopiedFlat(iov: seq<seq<Byte>>, i: nat, voff: nat, bytes: seq<Byte>)
    requires i < |iov| && voff + |bytes| <= |iov[i]|
    ensures var p := Start(iov, i) + voff;
            && p + |bytes| <= |Flat(iov)|
            && Flat(Copied(iov, i, voff, bytes)) == Flat(iov)[..p] + bytes + Flat(iov)[p + |bytes|..]
  {
    var m := iov[i];
    var m' := m[..voff] + bytes + m[voff + |bytes|..];
    var a, z := Flat(iov[..i]), Flat(iov[i + 1..]);
    assert Flat(iov) == a + m + z by {
      FlatAround(iov, i);
    }
    assert Flat(Copied(iov, i, voff, bytes)) == a + m' + z by {
      FlatReplace(iov, i, m');
    }
    Overwrite(a + m + z, a + m' + z, a, m, z, voff, bytes);
  }

  lemma {:induction false} SameStarts(a: seq<seq<Byte>>, b: seq<seq<Byte>>, i: nat)
    requires |a| == |b| && i <= |a| && forall k :: 0 <= k < |a| ==> |a[k]| == |b[k]|
    ensures Start(a, i) == Start(b, i)
  {
    if i > 0 {
      SameStarts(a, b, i - 1);
      FlatStep(a, i - 1);
      FlatStep(b, i - 1);
    }
  }

  /** Bytes left mean a buffer left. */
  lemma BufferLeft(iov: seq<seq<Byte>>, i: nat, voff: nat)
    requires i <= |iov| && (i == |iov| ==> voff == 0)
    requires Start(iov, i) + voff < |Flat(iov)|
    ensures i < |iov|
  {
    assert iov[..|iov|] == iov;
  }

  lemma FilledStep(was: seq<Byte>, file: seq<Byte>, at: nat, p: nat, bytes: seq<Byte>, f: seq<Byte>, f': seq<Byte>)
    requires p + |bytes| <= |was| && at + p + |bytes| <= |file| && bytes == file[at + p..at + p + |bytes|]
    requires f == Filled(was, file, at, p) && f' == f[..p] + bytes + f[p + |bytes|..]
    ensures f' == Filled(was, file, at, p + |bytes|)
  {
    var q := p + |bytes|;
    assert f[..p] == file[at..at + p] && f[q..] == was[q..];
    assert file[at..at + p] + bytes == file[at..at + q];
  }

  ghost predicate SameLens(a: seq<seq<Byte>>, b: seq<seq<Byte>>) {
    |a| == |b| && forall k :: 0 <= k < |a| ==> |a[k]| == |b[k]|
  }

  /** The first p bytes are in place, and buffer i at offset voff is where the next one goes. */
  ghost predicate Placed(iov: seq<seq<Byte>>, i: nat, voff: nat, was: seq<Byte>, file: seq<Byte>, at: nat, p: nat) {
    && i <= |iov| && (if i < |iov| then voff <= |iov[i]| else voff == 0)
    && p <= |was| && at + |was| <= |file|
    && Start(iov, i) + voff == p && Flat(iov) == Filled(was, file, at, p)
  }

  /** The inner loop: scatter one chunk, from buffer i at offset voff on. */
  method Scatter(iov: seq<seq<Byte>>, buf: seq<Byte>, i: nat, voff: nat,
                 ghost was: seq<Byte>, ghost file: seq<Byte>, ghost at: nat, ghost p: nat)
    returns (iov': seq<seq<Byte>>, i': nat, voff': nat)
    requires Placed(iov, i, voff, was, file, at, p) && p + |buf| <= |was| && buf == file[at + p..at + p + |buf|]
    ensures SameLens(iov, iov') && Placed(iov', i', voff', was, file, at, p + |buf|)
  {
    var boff := 0;
    iov', i', voff' := iov, i, voff;
    while boff < |buf|
      invariant 0 <= boff <= |buf| && SameLens(iov, iov') && Placed(iov', i', voff', was, file, at, p + boff)
      decreases |buf| - boff + |iov| - i'
    {
      BufferLeft(iov', i', voff');
      iov', i', voff', boff := ScatterOne(iov', buf, i', voff', boff, was, file, at, p);
    }
  }

  lemma CopiedPlaced(iov: seq<seq<Byte>>, i: nat, voff: nat, bytes: seq<Byte>,
                     was: seq<Byte>, file: seq<Byte>, at: nat, p: nat)
    requires i < |iov| && Placed(iov, i, voff, was, file, at, p) && voff + |bytes| <= |iov[i]|
    requires p + |bytes| <= |was| && bytes == file[at + p..at + p + |bytes|]
    ensures var r := Copied(iov, i, voff, bytes);
            && SameLens(iov, r) && Flat(r) == Filled(was, file, at, p + |bytes|)
            && Start(r, i) + voff == p && Start(r, i + 1) == p - voff + |iov[i]|
  {
    var r := Copied(iov, i, voff, bytes);
    CopiedFlat(iov, i, voff, bytes);
    SameStarts(iov, r, i);
    FlatStep(r, i);
    FilledStep(was, file, at, p, bytes, Flat(iov), Flat(r));
  }

  /** One turn of it: as much as fits in the current buffer. */
  method ScatterOne(iov: seq<seq<Byte>>, buf: seq<Byte>, i: nat, voff: nat, boff: nat,
                    ghost was: seq<Byte>, ghost file: seq<Byte>, ghost at: nat, ghost p: nat)
    returns (iov': seq<seq<Byte>>, i': nat, voff': nat, boff': nat)
    requires i < |iov| && boff < |buf| && p + |buf| <= |was| && at + |was| <= |file| && buf == file[at + p..at + p + |buf|]
    requires Placed(iov, i, voff, was, file, at, p + boff)
    ensures SameLens(iov, iov') && boff <= boff' <= |buf| && i <= i' && boff + i < boff' + i'
    ensures Placed(iov', i', voff', was, file, at, p + boff')
  {
    var clen := Min(|buf| - boff, |iov[i]| - voff);
    SubSlice(file, at + p, at + p + |buf|, boff, boff + clen);
    CopiedPlaced(iov, i, voff, buf[boff..boff + clen], was, file, at, p + boff);
    iov' := Copied(iov, i, voff, buf[boff..boff + clen]);
    if clen < |iov[i]| - voff {
      i', voff' := i, voff + clen;
    } else {
      i', voff' := i + 1, 0;
    }
    boff' := boff + clen;
  }

  /** What successive `pread` calls return: a count, or a failure. */
  datatype Outcome = Got(n: nat) | Failed

  /** `pread` of up to len bytes, len > 0, at a place where the file goes on: at least one byte. */
  predicate Plausible(o: Outcome, len: nat) {
    o.Got? ==> 1 <= o.n <= len
  }

  /** What the k-th read returns, given what it was asked for. */
  type Results = (nat, nat) -> Outcome

  /** The read loop, in chunks of at most `chunk` bytes: whatever positive counts the reads return, it does what one `preadv` of the
      bytes read would; it ends, and without a failure it reads all of the request. */
  method Read(file: seq<Byte>, at: nat, iov: seq<seq<Byte>>, chunk: nat, results: Results) returns (iov': seq<seq<Byte>>, resid: nat, ok: bool)
    requires chunk > 0 && at + |Flat(iov)| <= |file|
    requires forall k, len :: len > 0 ==> Plausible(results(k, len), len)
    ensures resid <= |Flat(iov)| && SameLens(iov, iov')
    ensures if ok then resid == 0 else resid > 0 && exists k :: results(k, Min(resid, chunk)).Failed?
    ensures Flat(iov') == Filled(Flat(iov), file, at, |Flat(iov)| - resid)
  {
    var was := Flat(iov);
    var i: nat, voff: nat, off: nat, k: nat := 0, 0, 0, 0;
    iov', resid, ok := iov, |was|, true;
    assert file[at..at] + was[0..] == was;
    while resid > 0
      invariant off + resid == |was| && SameLens(iov, iov') && Placed(iov', i, voff, was, file, at, off)
    {
      var len := Min(resid, chunk);
      var o := results(k, len);
      assert Plausible(o, len);
      if o.Failed? {
        ok := false;
        return;
      }
      iov', i, voff := Scatter(iov', file[at + off..at + off + o.n], i, voff, was, file, at, off);
      off := off + o.n;
      resid := resid - o.n;
      k := k + 1;
    }
  }

  // Byte by byte

  /** The bytes of the buffers before buffer i. */
  function Before(iov: seq<seq<Byte>>, i: nat): nat
    requires i <= |iov|
  {
    if i == 0 then 0 else Before(iov, i - 1) + |iov[i - 1]|
  }

  lemma {:induction false} StartIsBefore(iov: seq<seq<Byte>>, i: nat)
    requires i <= |iov|
    ensures Start(iov, i) == Before(iov, i)
  {
    if i > 0 {
      StartIsBefore(iov, i - 1);
      FlatStep(iov, i - 1);
    }
  }

  lemma {:induction false} FlatAt(iov: seq<seq<Byte>>, i: nat, j: nat)
    requires i < |iov| && j < |iov[i]|
    ensures var p := Before(iov, i) + j; p < |Flat(iov)| && Flat(iov)[p] == iov[i][j]
  {
    StartIsBefore(iov, i);
    FlatAround(iov, i);
    var a, z := Flat(iov[..i]), Flat(iov[i + 1..]);
    assert (a + iov[i] + z)[|a| + j] == iov[i][j];
  }

  lemma {:induction false} SameBefore(a: seq<seq<Byte>>, b: seq<seq<Byte>>, i: nat)
    requires SameLens(a, b) && i <= |a|
    ensures Before(a, i) == Before(b, i)
  {
    if i > 0 {
      SameBefore(a, b, i - 1);
    }
  }

  /** After a read of n bytes, byte j of buffer i is the byte of the file at its place in the request, if that is
      among the n, and what it was otherwise. */
  lemma {:induction false} ReadByte(iov: seq<seq<Byte>>, iov': seq<seq<Byte>>, file: seq<Byte>, at: nat, n: nat, i: nat, j: nat)
    requires SameLens(iov, iov') && n <= |Flat(iov)| && at + n <= |file| && Flat(iov') == Filled(Flat(iov), file, at, n)
    requires i < |iov| && j < |iov[i]|
    ensures j < |iov'[i]| && var p := Before(iov, i) + j; iov'[i][j] == if p < n then file[at + p] else iov[i][j]
  {
    FlatAt(iov, i, j);
    FlatAt(iov', i, j);
    SameBefore(iov, iov', i);
  }
}
