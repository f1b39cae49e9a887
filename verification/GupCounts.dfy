/** Reference counting of get_user_pages: what taking and dropping a grab does to a folio.

    `net` is the change this task has made to each folio's counters.  Other tasks' changes commute
    with it, so they are not modelled; what they can decide, such as whether a reference can be
    taken at all, is an argument. */
module GupCounts {
  type Page = nat

  type FolioId = nat

  const PIN_BIAS: int := 1024

  datatype Info = Info(start: nat, nr: nat, zero: bool, pincount: bool, p2pdma: bool, pinnable: bool, coherent: bool) {
    predicate Large() { nr > 1 }
    predicate Covers(p: Page) { start <= p < start + nr }
  }

  /** Which folio a page belongs to, and what that folio is. */
  datatype World = World(folio: map<Page, FolioId>, info: map<FolioId, Info>) {
    ghost predicate Valid() {
      && (forall p :: p in folio ==> folio[p] in info)
      && (forall p, f :: p in folio && f in info ==> (info[f].Covers(p) <==> folio[p] == f))
    }
  }

  datatype Counts = Counts(refs: int, pins: int)

  datatype Flags = Flags(get: bool, pin: bool, longterm: bool, p2pdma: bool, unlockable: bool, nowait: bool, fastOnly: bool) {
    /** FOLL_GET and FOLL_PIN exclude each other, and one of them is wanted. */
    predicate One() { get != pin }
    function Kind(): Kind { if get then Get else Pin }
  }

  datatype Kind = Get | Pin

  type Net = map<FolioId, Counts>

  function Sum(a: Counts, b: Counts): Counts { Counts(a.refs + b.refs, a.pins + b.pins) }

  /** n grabs of one kind. */
  function Unit(n: int, i: Info, k: Kind): Counts {
    if k.Get? then Counts(n, 0)
    else if i.zero then Counts(0, 0)
    else if i.pincount then Counts(n, n)
    else Counts(n * PIN_BIAS, 0)
  }

  /** What `try_grab_folio` adds; without either flag it adds nothing. */
  function Times(n: int, i: Info, fl: Flags): Counts {
    if fl.get then Unit(n, i, Get) else if fl.pin then Unit(n, i, Pin) else Counts(0, 0)
  }

  /** What `gup_put_folio` takes away. */
  function PutBack(n: int, i: Info, fl: Flags): Counts {
    Unit(n, i, if fl.pin then Pin else Get)
  }

  predicate Fits(w: World, net: Net) { net.Keys == w.info.Keys }

  function Grabbed(w: World, net: Net, f: FolioId, n: int, fl: Flags): (r: Net)
    requires Fits(w, net) && f in w.info
    ensures Fits(w, r)
  {
    net[f := Sum(net[f], Times(n, w.info[f], fl))]
  }

  function Dropped(w: World, net: Net, f: FolioId, n: int, fl: Flags): (r: Net)
    requires Fits(w, net) && f in w.info
    ensures Fits(w, r)
  {
    var d := PutBack(n, w.info[f], fl);
    net[f := Counts(net[f].refs - d.refs, net[f].pins - d.pins)]
  }

  /** Dropping undoes grabbing exactly when one of the two flags is set. */
  lemma DropInverts(w: World, net: Net, f: FolioId, n: int, fl: Flags)
    requires Fits(w, net) && f in w.info
    ensures Dropped(w, Grabbed(w, net, f, n, fl), f, n, fl) == net <==> fl.One() || n == 0
  {
    var r := Dropped(w, Grabbed(w, net, f, n, fl), f, n, fl);
    assert r[f] == net[f] <==> r == net;
  }

  /** What a grab adds, in numbers. */
  lemma GrabNumbers(w: World, net: Net, f: FolioId, n: int, fl: Flags)
    requires Fits(w, net) && f in w.info
    ensures var i, a, b := w.info[f], net[f], Grabbed(w, net, f, n, fl)[f];
            var pins := !fl.get && fl.pin && !i.zero;
            && b.refs - a.refs == (if fl.get then n else if !pins then 0 else if i.pincount then n else n * 1024)
            && b.pins - a.pins == (if pins && i.pincount then n else 0)
    ensures forall h :: h in w.info && h != f ==> Grabbed(w, net, f, n, fl)[h] == net[h]
  {
  }

  /** What a drop takes away, in numbers. */
  lemma DropNumbers(w: World, net: Net, f: FolioId, n: int, fl: Flags)
    requires Fits(w, net) && f in w.info
    ensures var i, a, b := w.info[f], net[f], Dropped(w, net, f, n, fl)[f];
            && a.refs - b.refs == (if !fl.pin then n else if i.zero then 0 else if i.pincount then n else n * 1024)
            && a.pins - b.pins == (if fl.pin && !i.zero && i.pincount then n else 0)
    ensures forall h :: h in w.info && h != f ==> Dropped(w, net, f, n, fl)[h] == net[h]
  {
  }

  function Copies(f: FolioId, n: nat): multiset<FolioId> { multiset{}[f := n] }

  predicate GainedAt(i: Info, a: Counts, b: Counts, n: nat, k: Kind) {
    b == Sum(a, Unit(n, i, k))
  }

  /** From `a` to `b` the counters have gained one grab per element of m.  Read from right to left,
      one grab per element has been dropped. */
  ghost predicate Gained(w: World, a: Net, b: Net, m: multiset<FolioId>, k: Kind) {
    && Fits(w, a) && Fits(w, b)
    && forall f {:trigger GainedAt(w.info[f], a[f], b[f], m[f], k)} :: f in w.info ==> GainedAt(w.info[f], a[f], b[f], m[f], k)
  }

  lemma GainedNone(w: World, a: Net, k: Kind)
    requires Fits(w, a)
    ensures Gained(w, a, a, multiset{}, k)
  {
  }

  /** A grab of n adds n elements. */
  lemma GainedGrab(w: World, a: Net, b: Net, m: multiset<FolioId>, f: FolioId, n: nat, fl: Flags)
    requires Gained(w, a, b, m, fl.Kind()) && f in w.info && fl.One()
    ensures Gained(w, a, Grabbed(w, b, f, n, fl), m + Copies(f, n), fl.Kind())
  {
    forall g | g in w.info ensures GainedAt(w.info[g], a[g], Grabbed(w, b, f, n, fl)[g], (m + Copies(f, n))[g], fl.Kind()) {
      assert GainedAt(w.info[g], a[g], b[g], m[g], fl.Kind());
      assert (m + Copies(f, n))[g] == if g == f then m[g] + n else m[g];
    }
  }

  /** Read from the other side, a drop of n adds n elements to what has been dropped. */
  lemma GainedDrop(w: World, a: Net, b: Net, m: multiset<FolioId>, f: FolioId, n: nat, fl: Flags)
    requires Gained(w, a, b, m, fl.Kind()) && f in w.info && fl.One()
    ensures Gained(w, Dropped(w, a, f, n, fl), b, m + Copies(f, n), fl.Kind())
  {
    forall g | g in w.info ensures GainedAt(w.info[g], Dropped(w, a, f, n, fl)[g], b[g], (m + Copies(f, n))[g], fl.Kind()) {
      assert GainedAt(w.info[g], a[g], b[g], m[g], fl.Kind());
      assert (m + Copies(f, n))[g] == if g == f then m[g] + n else m[g];
    }
  }

  lemma GainedBoth(w: World, a: Net, b: Net, c: Net, m: multiset<FolioId>, n: multiset<FolioId>, k: Kind)
    requires Gained(w, a, b, m, k) && Gained(w, b, c, n, k)
    ensures Gained(w, a, c, m + n, k)
  {
    forall g | g in w.info ensures GainedAt(w.info[g], a[g], c[g], (m + n)[g], k) {
      assert GainedAt(w.info[g], a[g], b[g], m[g], k) && GainedAt(w.info[g], b[g], c[g], n[g], k);
    }
  }

  /** What has been gained and dropped again leaves no trace. */
  lemma GainedBack(w: World, a: Net, b: Net, c: Net, m: multiset<FolioId>, k: Kind)
    requires Gained(w, a, b, m, k) && Gained(w, c, b, m, k)
    ensures c == a
  {
    forall g | g in a ensures c[g] == a[g] {
      assert GainedAt(w.info[g], a[g], b[g], m[g], k) && GainedAt(w.info[g], c[g], b[g], m[g], k);
    }
  }

  /** What other tasks make of one attempt to take a reference. */
  datatype Attempt =
    | Dead                  // the count is negative, or zero
    | Split(was: FolioId)   // the page moved to another folio in between

  /** When the fast path can grab a folio: the zero folio needs no reference, a long-term pin needs
      a folio that may keep it, and a P2PDMA folio has to be asked for. */
  predicate FastGrabs(i: Info, fl: Flags, attempts: seq<Attempt>) {
    && (fl.get || fl.pin)
    && (i.p2pdma ==> fl.p2pdma)
    && ((!fl.get && i.zero) || (Dead !in attempts && (!fl.get && fl.longterm ==> i.pinnable)))
  }

  class Gup {
    const w: World
    var net: Net

    constructor (w: World)
      requires w.Valid()
      ensures this.w == w && Valid() && forall f :: f in w.info ==> net[f] == Counts(0, 0)
    {
      this.w := w;
      net := map f | f in w.info :: Counts(0, 0);
    }

    ghost predicate Valid()
      reads this
    {
      w.Valid() && Fits(w, net)
    }

    method RefAdd(f: FolioId, n: int)
      requires Valid() && f in w.info
      modifies this
      ensures Valid() && net == old(net)[f := Sum(old(net)[f], Counts(n, 0))]
    {
      net := net[f := Sum(net[f], Counts(n, 0))];
    }

    method PinAdd(f: FolioId, n: int)
      requires Valid() && f in w.info
      modifies this
      ensures Valid() && net == old(net)[f := Sum(old(net)[f], Counts(0, n))]
    {
      net := net[f := Sum(net[f], Counts(0, n))];
    }

    /** `try_get_folio`; after the given attempts the page stays with its folio. */
    method TryGet(page: Page, n: nat, attempts: seq<Attempt>) returns (ok: bool)
      requires Valid() && page in w.folio && forall a :: a in attempts && a.Split? ==> a.was in w.info
      modifies this
      ensures Valid()
      ensures net == if ok then old(net)[w.folio[page] := Sum(old(net)[w.folio[page]], Counts(n, 0))] else old(net)
      ensures ok <==> Dead !in attempts
    {
      var i := 0;
      while i < |attempts|
        invariant 0 <= i <= |attempts| && Valid() && net == old(net) && Dead !in attempts[..i]
      {
        assert attempts[i] in attempts;
        if attempts[i].Dead? {
          return false;
        }
        RefAdd(attempts[i].was, n);
        RefAdd(attempts[i].was, 0 - n);
        assert attempts[..i + 1] == attempts[..i] + [attempts[i]];
        i := i + 1;
      }
      assert attempts[..i] == attempts;
      RefAdd(w.folio[page], n);
      ok := true;
    }

    /** `gup_put_folio`. */
    method Put(f: FolioId, n: nat, fl: Flags)
      requires Valid() && f in w.info
      modifies this
      ensures Valid() && net == Dropped(w, old(net), f, n, fl)
    {
      var refs := n;
      if fl.pin {
        if w.info[f].zero {
          assert net == Dropped(w, net, f, n, fl);
          return;
        }
        if w.info[f].pincount {
          PinAdd(f, 0 - n);
        } else {
          refs := n * PIN_BIAS;
        }
      }
      RefAdd(f, -refs);
    }

    /** `try_grab_folio`; `dead` says that the reference count is not positive. */
    method TryGrab(f: FolioId, n: nat, fl: Flags, dead: bool) returns (ok: bool)
      requires Valid() && f in w.info
      modifies this
      ensures Valid() && net == if ok then Grabbed(w, old(net), f, n, fl) else old(net)
      ensures ok <==> !dead && (fl.p2pdma || !w.info[f].p2pdma)
    {
      if dead || (!fl.p2pdma && w.info[f].p2pdma) {
        return false;
      }
      ok := true;
      if fl.get {
        RefAdd(f, n);
      } else if fl.pin {
        if w.info[f].zero {
          assert net == Grabbed(w, net, f, n, fl);
          return;
        }
        if w.info[f].pincount {
          RefAdd(f, n);
          PinAdd(f, n);
        } else {
          RefAdd(f, n * PIN_BIAS);
        }
      } else {
        assert net == Grabbed(w, net, f, n, fl);
      }
    }

    /** `try_grab_folio_fast`: when it succeeds, exactly what `try_grab_folio` does. */
    method TryGrabFast(page: Page, n: nat, fl: Flags, attempts: seq<Attempt>) returns (ok: bool)
      requires Valid() && page in w.folio && forall a :: a in attempts && a.Split? ==> a.was in w.info
      modifies this
      ensures Valid() && net == if ok then Grabbed(w, old(net), w.folio[page], n, fl) else old(net)
      ensures var i := w.info[w.folio[page]];
              ok <==>
              && (i.p2pdma ==> fl.p2pdma)
              && if fl.get then Dead !in attempts
                 else fl.pin && (i.zero || (Dead !in attempts && (fl.longterm ==> i.pinnable)))
    {
      var f := w.folio[page];
      if (!fl.get && !fl.pin) || (!fl.p2pdma && w.info[f].p2pdma) {
        return false;
      }
      if fl.get {
        ok := TryGet(page, n, attempts);
        return;
      }
      ok := TryPinFast(page, n, fl, attempts);
    }

    /** Its FOLL_PIN part. */
    method TryPinFast(page: Page, n: nat, fl: Flags, attempts: seq<Attempt>) returns (ok: bool)
      requires Valid() && page in w.folio && forall a :: a in attempts && a.Split? ==> a.was in w.info
      requires !fl.get && fl.pin
      modifies this
      ensures Valid() && net == if ok then Grabbed(w, old(net), w.folio[page], n, fl) else old(net)
      ensures ok <==> w.info[w.folio[page]].zero || (Dead !in attempts && (fl.longterm ==> w.info[w.folio[page]].pinnable))
    {
      var f := w.folio[page];
      if w.info[f].zero {
        assert net == Grabbed(w, net, f, n, fl);
        return true;
      }
      ok := TryGet(page, n, attempts);
      if !ok {
        return;
      }
      if fl.longterm && !w.info[f].pinnable {
        RefAdd(f, 0 - n);
        return false;
      }
      if w.info[f].pincount {
        PinAdd(f, n);
      } else {
        RefAdd(f, n * (PIN_BIAS - 1));
      }
    }
  }
}
