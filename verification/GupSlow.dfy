/** The slow path: pages are looked up and faulted in one after the other under the mmap lock, which
    a fault may drop. */
module GupSlow {
  import opened Common
  import opened GupCounts
  import opened GupUnpin

  const EINTR: int := -4
  const EAGAIN: int := -11
  const EFAULT: int := -14

  /** The mmap lock, held for reading by this task or not. */
  class Mm {
    var held: bool

    /** How often it has been let go. */
    ghost var drops: nat

    constructor ()
      ensures !held && drops == 0
    {
      held, drops := false, 0;
    }

    method ReadLock()
      requires !held
      modifies this
      ensures held && drops == old(drops)
    {
      held := true;
    }

    method ReadUnlock()
      requires held
      modifies this
      ensures !held && drops == old(drops) + 1
    {
      held, drops := false, drops + 1;
    }
  }

  /** What the fault handler does; `Retry` and `Completed` drop the mmap lock unless told not to wait. */
  datatype Fault = Resolved | Retry | Completed | Error(err: int)

  /** What a lookup meets: an error or a signal, no page, or a page whose mapping goes on for `span`
      pages.  `dead` says that the folio's count is no longer positive at the second grab. */
  datatype Event = Fails(err: int) | Faults(fault: Fault) | Finds(page: Page, span: nat, dead: bool)

  /** The page tables over time: what lookup number t meets if it is made at address va.  When the
      lookups run out a fatal signal is pending. */
  datatype Lookups = Lookups(limit: nat, at: (nat, nat) -> Event)

  /** Pages page to page + n - 1 all belong to one folio. */
  ghost predicate OneFolio(w: World, page: Page, n: nat) {
    page in w.folio && forall q :: page <= q < page + n ==> q in w.folio && w.folio[q] == w.folio[page]
  }

  ghost predicate EventOk(w: World, fl: Flags, e: Event)
    requires w.Valid()
  {
    match e
    case Fails(err) => err < 0
    case Faults(Resolved) => true
    case Faults(Retry) => fl.unlockable || fl.nowait
    case Faults(Completed) => fl.unlockable && !fl.nowait
    case Faults(Error(err)) => err < 0
    case Finds(page, span, _) => span > 0 && OneFolio(w, page, span) && (fl.p2pdma || !w.info[w.folio[page]].p2pdma)
  }

  /** Lookup t finds this page at va. */
  predicate Saw(o: Lookups, t: nat, va: nat, page: Page) {
    var e := o.at(t, va);
    e.Finds? && e.page == page
  }

  predicate SawNext(o: Lookups, t: nat, va: nat, page: Page, j: nat) { Saw(o, t, va + j, page + j) }

  /** A mapping that goes on maps the following addresses to the following pages. */
  ghost predicate LookupOk(w: World, fl: Flags, o: Lookups, t: nat, va: nat)
    requires w.Valid()
  {
    var e := o.at(t, va);
    EventOk(w, fl, e) && (e.Finds? ==> forall j :: 0 <= j < e.span ==> SawNext(o, t, va, e.page, j))
  }

  ghost predicate LookupsOk(w: World, fl: Flags, o: Lookups)
    requires w.Valid()
  {
    forall t, va {:trigger LookupOk(w, fl, o, t, va)} :: LookupOk(w, fl, o, t, va)
  }

  // What has been got so far

  /** Some lookup from lo on and before hi found this page at va. */
  ghost predicate SeenAt(o: Lookups, lo: nat, hi: nat, va: nat, page: Page) {
    exists t :: lo <= t < hi && Saw(o, t, va, page)
  }

  ghost predicate SeenJth(o: Lookups, lo: nat, hi: nat, va: nat, got: seq<Page>, j: nat)
    requires j < |got|
  {
    SeenAt(o, lo, hi, va + j, got[j])
  }

  /** Each page has been found at its own address, from va on in order. */
  ghost predicate Seen(o: Lookups, lo: nat, hi: nat, va: nat, got: seq<Page>) {
    forall j {:trigger SeenJth(o, lo, hi, va, got, j)} :: 0 <= j < |got| ==> SeenJth(o, lo, hi, va, got, j)
  }

  lemma SeenJoin(o: Lookups, lo: nat, mid: nat, hi: nat, va: nat, i: nat, p: seq<Page>, q: seq<Page>)
    requires |p| == i && lo <= mid <= hi && Seen(o, lo, mid, va, p) && Seen(o, mid, hi, va + i, q)
    ensures Seen(o, lo, hi, va, p + q)
  {
    forall j | 0 <= j < |p + q| ensures SeenJth(o, lo, hi, va, p + q, j) {
      if j < i {
        assert SeenJth(o, lo, mid, va, p, j);
      } else {
        assert SeenJth(o, mid, hi, va + i, q, j - i);
        assert va + i + (j - i) == va + j;
      }
    }
  }

  lemma SeenWider(o: Lookups, lo: nat, hi: nat, lo': nat, hi': nat, va: nat, got: seq<Page>)
    requires lo' <= lo && hi <= hi' && Seen(o, lo, hi, va, got)
    ensures Seen(o, lo', hi', va, got)
  {
    forall j | 0 <= j < |got| ensures SeenJth(o, lo', hi', va, got, j) {
      assert SeenJth(o, lo, hi, va, got, j);
    }
  }

  /** One grab for each page. */
  ghost function Grabs(w: World, got: seq<Page>): multiset<FolioId>
    requires AllIn(w, got)
  {
    if got == [] then multiset{} else Grabs(w, got[..|got| - 1]) + multiset{w.folio[got[|got| - 1]]}
  }

  lemma {:induction false} GrabsJoin(w: World, p: seq<Page>, q: seq<Page>)
    requires AllIn(w, p) && AllIn(w, q)
    ensures Grabs(w, p + q) == Grabs(w, p) + Grabs(w, q)
  {
    if q == [] {
      assert p + q == p;
    } else {
      var c := q[..|q| - 1];
      assert (p + q)[..|p + q| - 1] == p + c;
      GrabsJoin(w, p, c);
    }
  }

  lemma {:induction false} StretchGrabs(w: World, page: Page, n: nat)
    requires w.Valid() && OneFolio(w, page, n)
    ensures AllIn(w, Stretch(page, n)) && Grabs(w, Stretch(page, n)) == Copies(w.folio[page], n)
  {
    if n > 0 {
      StretchGrabs(w, page, n - 1);
      assert Stretch(page, n)[..n - 1] == Stretch(page, n - 1);
    }
  }

  /** The ledger: from `a` to `b` the counters have gained one grab for each page. */
  ghost predicate Ledger(w: World, a: Net, b: Net, got: seq<Page>, k: Kind) {
    AllIn(w, got) && Gained(w, a, b, Grabs(w, got), k) && (got == [] ==> b == a)
  }

  lemma LedgerJoin(w: World, a: Net, b: Net, c: Net, p: seq<Page>, q: seq<Page>, k: Kind)
    requires Ledger(w, a, b, p, k) && Ledger(w, b, c, q, k)
    ensures Ledger(w, a, c, p + q, k)
  {
    GrabsJoin(w, p, q);
    GainedBoth(w, a, b, c, Grabs(w, p), Grabs(w, q), k);
  }

  lemma LedgerNone(w: World, a: Net, k: Kind)
    requires Fits(w, a)
    ensures Ledger(w, a, a, [], k)
  {
    GainedNone(w, a, k);
  }

  /** n grabs of a folio, for n of its pages in a row. */
  lemma LedgerSpan(w: World, a: Net, page: Page, n: nat, fl: Flags)
    requires w.Valid() && Fits(w, a) && OneFolio(w, page, n) && fl.One()
    ensures Ledger(w, a, Grabbed(w, a, w.folio[page], n, fl), Stretch(page, n), fl.Kind())
  {
    GainedNone(w, a, fl.Kind());
    GainedGrab(w, a, a, multiset{}, w.folio[page], n, fl);
    StretchGrabs(w, page, n);
    assert multiset{} + Copies(w.folio[page], n) == Copies(w.folio[page], n);
    assert n == 0 ==> Grabbed(w, a, w.folio[page], n, fl) == a;
  }

  predicate SlotHolds(ps: seq<Page>, at: nat, got: seq<Page>, j: nat)
    requires at + |got| <= |ps| && j < |got|
  {
    ps[at + j] == got[j]
  }

  predicate SlotKept(was: seq<Page>, ps: seq<Page>, x: nat)
    requires |was| == |ps| && x < |ps|
  {
    ps[x] == was[x]
  }

  /** The array holds these pages from slot `at` on; the other slots are as they were. */
  ghost predicate Filled(was: seq<Page>, ps: seq<Page>, at: nat, got: seq<Page>) {
    && |ps| == |was| && at + |got| <= |ps|
    && (forall j {:trigger SlotHolds(ps, at, got, j)} :: 0 <= j < |got| ==> SlotHolds(ps, at, got, j))
    && (forall x {:trigger SlotKept(was, ps, x)} :: 0 <= x < |ps| && !(at <= x < at + |got|) ==> SlotKept(was, ps, x))
  }

  lemma FilledJoin(was: seq<Page>, ps: seq<Page>, qs: seq<Page>, at: nat, i: nat, p: seq<Page>, q: seq<Page>)
    requires |p| == i && Filled(was, ps, at, p) && Filled(ps, qs, at + i, q)
    ensures Filled(was, qs, at, p + q)
  {
    forall j | 0 <= j < |p + q| ensures SlotHolds(qs, at, p + q, j) {
      if j < i {
        assert SlotHolds(ps, at, p, j) && SlotKept(ps, qs, at + j);
      } else {
        assert SlotHolds(qs, at + i, q, j - i);
      }
    }
    forall x | 0 <= x < |qs| && !(at <= x < at + |p + q|) ensures SlotKept(was, qs, x) {
      assert SlotKept(was, ps, x) && SlotKept(ps, qs, x);
    }
  }

  /** What has been got, and where it has been put. */
  ghost predicate Has(w: World, a: Net, b: Net, was: seq<Page>, ps: seq<Page>, at: nat, got: seq<Page>, k: Kind) {
    Ledger(w, a, b, got, k) && Filled(was, ps, at, got)
  }

  lemma HasNone(w: World, a: Net, ps: seq<Page>, at: nat, k: Kind)
    requires Fits(w, a) && at <= |ps|
    ensures Has(w, a, a, ps, ps, at, [], k)
  {
    LedgerNone(w, a, k);
  }

  lemma HasJoin(w: World, a: Net, b: Net, c: Net, was: seq<Page>, ps: seq<Page>, qs: seq<Page>, at: nat, i: nat, p: seq<Page>, q: seq<Page>, k: Kind)
    requires |p| == i && Has(w, a, b, was, ps, at, p, k) && Has(w, b, c, ps, qs, at + i, q, k)
    ensures Has(w, a, c, was, qs, at, p + q, k)
  {
    LedgerJoin(w, a, b, c, p, q, k);
    FilledJoin(was, ps, qs, at, i, p, q);
  }

  /** Where a request began: the counters, the array, the first slot and the first address. */
  datatype Origin = Origin(net: Net, ps: seq<Page>, at: nat, va: nat)

  /** Since then these pages have been found by lookups before number k, each at its own address,
      grabbed once and stored in order; nothing else has changed. */
  ghost predicate Fetched(w: World, b: Origin, net: Net, ps: seq<Page>, o: Lookups, k: nat, got: seq<Page>, kind: Kind) {
    Has(w, b.net, net, b.ps, ps, b.at, got, kind) && Seen(o, 0, k, b.va, got)
  }

  lemma FetchedNone(w: World, b: Origin, o: Lookups, kind: Kind)
    requires Fits(w, b.net) && b.at <= |b.ps|
    ensures Fetched(w, b, b.net, b.ps, o, 0, [], kind)
  {
    HasNone(w, b.net, b.ps, b.at, kind);
  }

  lemma FetchedLater(w: World, b: Origin, net: Net, ps: seq<Page>, o: Lookups, k: nat, k': nat, got: seq<Page>, kind: Kind)
    requires Fetched(w, b, net, ps, o, k, got, kind) && k <= k'
    ensures Fetched(w, b, net, ps, o, k', got, kind)
  {
    SeenWider(o, 0, k, 0, k', b.va, got);
  }

  lemma FetchedMore(w: World, b: Origin, net: Net, net': Net, ps: seq<Page>, ps': seq<Page>, o: Lookups, k: nat, at: nat, va: nat, got: seq<Page>, more: seq<Page>, kind: Kind)
    requires Fetched(w, b, net, ps, o, k, got, kind) && at == b.at + |got| && va == b.va + |got|
    requires Has(w, net, net', ps, ps', at, more, kind) && Seen(o, k, k + 1, va, more)
    ensures Fetched(w, b, net', ps', o, k + 1, got + more, kind)
  {
    HasJoin(w, b.net, net, net', b.ps, ps, ps', b.at, |got|, got, more, kind);
    SeenJoin(o, 0, k, k + 1, b.va, |got|, got, more);
  }

  // One lookup

  /** `follow_page_mask` grabs the page it finds; the rest of the span is grabbed after it. */
  method GrabSpan(g: Gup, page: Page, n: nat, fl: Flags, dead: bool) returns (ok: bool)
    requires g.Valid() && n > 0 && page in g.w.folio && fl.One() && (fl.p2pdma || !g.w.info[g.w.folio[page]].p2pdma)
    modifies g
    ensures g.Valid() && g.net == if ok then Grabbed(g.w, old(g.net), g.w.folio[page], n, fl) else old(g.net)
    ensures ok <==> n == 1 || !dead
  {
    var f := g.w.folio[page];
    ok := g.TryGrab(f, 1, fl, false);
    if n > 1 {
      ok := g.TryGrab(f, n - 1, fl, dead);
      if !ok {
        DropInverts(g.w, old(g.net), f, 1, fl);
        g.Put(f, 1, fl);
      }
    }
  }

  method StorePages(pages: array<Page>, at: nat, page: Page, n: nat, ghost ps0: seq<Page>)
    requires at + n <= pages.Length && ps0 == pages[..]
    modifies pages
    ensures Filled(ps0, pages[..], at, Stretch(page, n))
  {
    var j := 0;
    while j < n
      invariant 0 <= j <= n
      invariant forall x :: 0 <= x < pages.Length ==> pages[x] == if at <= x < at + j then page + (x - at) else ps0[x]
    {
      pages[at + j] := page + j;
      j := j + 1;
    }
  }

  // Why lookups end

  /** The event ends the loop, with `left` pages to go; all others let it go on. */
  predicate Ends(e: Event, left: nat) {
    match e
    case Fails(_) => true
    case Faults(f) => !f.Resolved?
    case Finds(_, span, dead) => dead && span > 1 && left > 1
  }

  /** What it returns if there is no page yet. */
  function EndCode(e: Event): int {
    match e
    case Fails(err) => err
    case Faults(Error(err)) => err
    case Faults(_) => 0
    case Finds(_, _, _) => EFAULT
  }

  /** It lets go of the lock, so that the lookup is to be tried again. */
  predicate Drops(e: Event, fl: Flags) {
    e == Faults(Completed) || (e == Faults(Retry) && !fl.nowait)
  }

  /** After k lookups there is no page for va: a fatal signal is pending, or the last of them ended the
      loop there for good.  Without any page, `ret` is what the caller gets for it. */
  predicate Short(o: Lookups, fl: Flags, va: nat, left: nat, k: nat, ret: int) {
    || (k == o.limit && (ret <= 0 ==> ret == EINTR))
    || (k > 0 && Ends(o.at(k - 1, va), left) && !Drops(o.at(k - 1, va), fl) && (ret <= 0 ==> ret == EndCode(o.at(k - 1, va))))
  }

  /** Whether a signal is pending, or the lock cannot be had, at each turn. */
  datatype Luck = Luck(signal: nat -> bool, killed: nat -> bool)

  predicate CutAt(o: Lookups, luck: Luck, fl: Flags, va: nat, left: nat, k: nat, ret: int) {
    || Short(o, fl, va, left, k, ret)
    || ((luck.signal(k) || luck.killed(k)) && (ret <= 0 ==> ret == EINTR))
  }

  /** At some point there was no page for va: a signal came, or a lookup there ended the loop. */
  ghost predicate CutOff(o: Lookups, luck: Luck, fl: Flags, va: nat, left: nat, ret: int) {
    exists k :: 0 <= k <= o.limit && CutAt(o, luck, fl, va, left, k, ret)
  }

  // The lookup loop

  /** How one lookup ends. */
  datatype Turn = Next | Again | Stop(ret: int)

  /** One turn of the loop of `__get_user_pages`, lookup number k, with `left` pages to go. */
  method LookUp(g: Gup, mm: Mm, pages: array<Page>, at: nat, va: nat, left: nat, fl: Flags, o: Lookups, k: nat, ghost net0: Net, ghost ps0: seq<Page>)
    returns (t: Turn, n: nat, ghost got: seq<Page>, locked: bool)
    requires net0 == g.net && ps0 == pages[..]
    requires g.Valid() && LookupsOk(g.w, fl, o) && fl.One() && mm.held && 0 < left && at + left <= pages.Length
    modifies g, mm, pages
    ensures g.Valid() && locked == mm.held && |got| == n <= left && (t.Next? <==> n > 0)
    ensures Has(g.w, net0, g.net, ps0, pages[..], at, got, fl.Kind()) && Seen(o, k, k + 1, va, got)
    ensures !locked ==> fl.unlockable && !fl.nowait
    ensures t.Stop? ==> t.ret <= 0 && (t.ret == 0 ==> !locked || fl.nowait)
    ensures locked ==> mm.drops == old(mm.drops)
    ensures var e := o.at(k, va);
            && (t.Stop? <==> Ends(e, left)) && (t.Stop? ==> t.ret == EndCode(e)) && (locked <==> !Drops(e, fl))
            && (t.Next? ==> e.Finds? && (n == left || n == e.span))
  {
    var e := o.at(k, va);
    assert LookupOk(g.w, fl, o, k, va);
    n, locked, got := 0, true, [];
    HasNone(g.w, g.net, pages[..], at, fl.Kind());
    match e
    case Fails(err) => t := Stop(err);
    case Faults(Resolved) => t := Again;
    case Faults(Retry) =>
      if !fl.nowait {
        mm.ReadUnlock();
        locked := false;
      }
      t := Stop(0);
    case Faults(Completed) =>
      mm.ReadUnlock();
      locked := false;
      t := Stop(0);
    case Faults(Error(err)) => t := Stop(err);
    case Finds(page, span, dead) =>
      n := if span > left then left else span;
      var ok := Take(g, pages, at, page, n, fl, dead, net0, ps0);
      if !ok {
        t, n := Stop(EFAULT), 0;
        return;
      }
      SpanSeen(o, k, k + 1, va, n);
      t, got := Next, Stretch(page, n);
  }

  /** The same, after what has been fetched already. */
  method LookUpNext(g: Gup, mm: Mm, pages: array<Page>, at: nat, va: nat, left: nat, fl: Flags, o: Lookups, k: nat, ghost b: Origin, ghost got: seq<Page>)
    returns (t: Turn, n: nat, ghost got': seq<Page>, locked: bool, k': nat)
    requires Fetched(g.w, b, g.net, pages[..], o, k, got, fl.Kind()) && at == b.at + |got| && va == b.va + |got|
    requires g.Valid() && LookupsOk(g.w, fl, o) && fl.One() && mm.held && 0 < left && at + left <= pages.Length
    modifies g, mm, pages
    ensures Fetched(g.w, b, g.net, pages[..], o, k', got', fl.Kind()) && |got'| == |got| + n && k' == k + 1
    ensures g.Valid() && locked == mm.held && n <= left
    ensures (t.Stop? ==> n == 0) && Turned(o, fl, va + n, left - n, k', t, locked) && (locked ==> mm.drops == old(mm.drops))
  {
    ghost var net0, ps0, more := g.net, pages[..], [];
    t, n, more, locked := LookUp(g, mm, pages, at, va, left, fl, o, k, net0, ps0);
    FetchedMore(g.w, b, net0, g.net, ps0, pages[..], o, k, at, va, got, more, fl.Kind());
    got', k' := got + more, k + 1;
  }

  /** Grabs and stores what a lookup has found. */
  method Take(g: Gup, pages: array<Page>, at: nat, page: Page, n: nat, fl: Flags, dead: bool, ghost net0: Net, ghost ps0: seq<Page>) returns (ok: bool)
    requires net0 == g.net && ps0 == pages[..]
    requires g.Valid() && n > 0 && OneFolio(g.w, page, n) && fl.One() && (fl.p2pdma || !g.w.info[g.w.folio[page]].p2pdma)
    requires at + n <= pages.Length
    modifies g, pages
    ensures g.Valid() && (ok <==> n == 1 || !dead)
    ensures if ok then Has(g.w, net0, g.net, ps0, pages[..], at, Stretch(page, n), fl.Kind()) else g.net == net0 && pages[..] == ps0
  {
    ok := GrabSpan(g, page, n, fl, dead);
    if ok {
      LedgerSpan(g.w, net0, page, n, fl);
      StorePages(pages, at, page, n, ps0);
    }
  }

  lemma SpanSeen(o: Lookups, k: nat, hi: nat, va: nat, n: nat)
    requires k < hi
    requires var e := o.at(k, va); e.Finds? && n <= e.span && forall j :: 0 <= j < e.span ==> SawNext(o, k, va, e.page, j)
    ensures Seen(o, k, hi, va, Stretch(o.at(k, va).page, n))
  {
    var page := o.at(k, va).page;
    var got := Stretch(page, n);
    forall j | 0 <= j < |got| ensures SeenJth(o, k, hi, va, got, j) {
      assert SawNext(o, k, va, page, j);
      assert Saw(o, k, va + j, got[j]);
    }
  }

  /** `__get_user_pages`, from slot `at` of the array and lookup k on. */
  method GetUserPages(g: Gup, mm: Mm, pages: array<Page>, at: nat, start: nat, nr: nat, fl: Flags, o: Lookups, k: nat, ghost b: Origin, ghost got: seq<Page>)
    returns (ret: int, ghost got': seq<Page>, locked: bool, k': nat)
    requires Fetched(g.w, b, g.net, pages[..], o, k, got, fl.Kind()) && at == b.at + |got| && start == b.va + |got|
    requires g.Valid() && LookupsOk(g.w, fl, o) && fl.One() && mm.held && at + nr <= pages.Length && k <= o.limit
    modifies g, mm, pages
    ensures Fetched(g.w, b, g.net, pages[..], o, k', got', fl.Kind()) && |got'| == |got| + if ret > 0 then ret else 0
    ensures g.Valid() && locked == mm.held && k <= k' <= o.limit && ret <= nr
    ensures !locked ==> 0 <= ret < nr && fl.unlockable && !fl.nowait && k < k'
    ensures nr > 0 && ret == 0 ==> !locked || fl.nowait
    ensures Shortfall(o, fl, start, nr, k', ret, locked) && (locked ==> mm.drops == old(mm.drops))
  {
    var i: nat, va: nat, left: nat, t := 0, start, nr, Next;
    locked, k', got' := true, k, got;
    while left > 0 && !t.Stop?
      invariant g.Valid() && locked == mm.held && va == start + i && i + left == nr && k <= k' <= o.limit
      invariant Fetched(g.w, b, g.net, pages[..], o, k', got', fl.Kind()) && |got'| == |got| + i
      invariant (!locked ==> k < k') && Turned(o, fl, va, left, k', t, locked) && (locked ==> mm.drops == old(mm.drops))
      decreases !t.Stop?, o.limit - k'
    {
      if k' == o.limit {
        t := Stop(EINTR);
      } else {
        var n;
        t, n, got', locked, k' := LookUpNext(g, mm, pages, at + i, va, left, fl, o, k', b, got');
        i, va, left := i + n, va + n, left - n;
      }
    }
    ret := if i > 0 || !t.Stop? then i else t.ret;
    TurnedShort(o, fl, start, nr, i, k', t, ret, locked);
  }

  lemma TurnedShort(o: Lookups, fl: Flags, start: nat, nr: nat, i: nat, k: nat, t: Turn, ret: int, locked: bool)
    requires i <= nr && Turned(o, fl, start + i, nr - i, k, t, locked) && (t.Stop? || i == nr)
    requires ret == if i > 0 || !t.Stop? then i else t.ret
    ensures ret <= nr && (!locked ==> 0 <= ret < nr && fl.unlockable && !fl.nowait) && (nr > 0 && ret == 0 ==> !locked || fl.nowait)
    ensures Shortfall(o, fl, start, nr, k, ret, locked) && i == if ret > 0 then ret else 0
  {
  }

  /** How the loop stands after k lookups, with va to be looked up next and `left` pages to go. */
  ghost predicate Turned(o: Lookups, fl: Flags, va: nat, left: nat, k: nat, t: Turn, locked: bool) {
    if locked then t.Stop? ==> left > 0 && t.ret <= 0 && (t.ret == 0 ==> fl.nowait) && Short(o, fl, va, left, k, t.ret)
    else left > 0 && t == Stop(0) && fl.unlockable && !fl.nowait && k > 0 && Drops(o.at(k - 1, va), fl)
  }

  /** With fewer pages than asked for, the lookups ended at the first address without one. */
  ghost predicate Shortfall(o: Lookups, fl: Flags, start: nat, nr: nat, k: nat, ret: int, locked: bool) {
    var m := if ret > 0 then ret else 0;
    m < nr ==> if locked then Short(o, fl, start + m, nr - m, k, ret) else k > 0 && Drops(o.at(k - 1, start + m), fl)
  }

  // Retrying with the lock retaken

  /** The `retry` part: one page, with the lock taken anew as often as faults drop it. */
  method RetryPage(g: Gup, mm: Mm, pages: array<Page>, at: nat, va: nat, fl: Flags, o: Lookups, k: nat, luck: Luck, ghost b: Origin, ghost got: seq<Page>)
    returns (ok: bool, err: int, ghost got': seq<Page>, locked: bool, k': nat)
    requires Fetched(g.w, b, g.net, pages[..], o, k, got, fl.Kind()) && at == b.at + |got| && va == b.va + |got|
    requires g.Valid() && LookupsOk(g.w, fl, o) && fl.One() && !fl.nowait && !mm.held && at < pages.Length && k <= o.limit
    modifies g, mm, pages
    ensures Fetched(g.w, b, g.net, pages[..], o, k', got', fl.Kind()) && |got'| == |got| + if ok then 1 else 0
    ensures g.Valid() && k <= k' <= o.limit && locked == mm.held && (ok ==> locked)
    ensures !ok ==> err < 0 && CutAt(o, luck, fl, va, 1, k', err)
    ensures luck.signal(k) || luck.killed(k) ==> !ok && err == EINTR && k' == k && mm.drops == old(mm.drops)
  {
    k', got', ok, err, locked := k, got, false, EINTR, false;
    while true
      invariant g.Valid() && !mm.held && !locked && k <= k' <= o.limit && !ok && err == EINTR
      invariant Fetched(g.w, b, g.net, pages[..], o, k', got', fl.Kind()) && |got'| == |got|
      invariant luck.signal(k) || luck.killed(k) ==> k' == k && mm.drops == old(mm.drops)
      decreases o.limit - k'
    {
      if luck.signal(k') || luck.killed(k') {
        return;
      }
      mm.ReadLock();
      var ret;
      ret, got', locked, k' := GetUserPages(g, mm, pages, at, va, 1, fl, o, k', b, got');
      if locked {
        ok, err := ret == 1, ret;
        RetryCut(o, luck, fl, va, k', ret);
        return;
      }
    }
  }

  lemma RetryCut(o: Lookups, luck: Luck, fl: Flags, va: nat, k: nat, ret: int)
    requires Shortfall(o, fl, va, 1, k, ret, true)
    ensures ret <= 0 ==> CutAt(o, luck, fl, va, 1, k, ret)
  {
  }

  /** A turn got n pages and then stopped for good, unless it got all; `ret` is for want of any. */
  ghost predicate TurnEnds(o: Lookups, luck: Luck, fl: Flags, va: nat, left: nat, k: nat, n: nat, ret: int) {
    && (n == 0 ==> ret <= 0 && (ret == 0 ==> fl.nowait))
    && (n < left ==> CutAt(o, luck, fl, va + n, left - n, k, if n == 0 then ret else n))
  }

  lemma TurnCut(o: Lookups, luck: Luck, fl: Flags, va: nat, left: nat, k: nat, n: nat, ret: int)
    requires Shortfall(o, fl, va, left, k, ret, true) && n == (if ret > 0 then ret else 0) && (ret == 0 ==> fl.nowait)
    ensures TurnEnds(o, luck, fl, va, left, k, n, ret)
  {
  }

  lemma TurnRetried(o: Lookups, luck: Luck, fl: Flags, va: nat, va': nat, left: nat, k: nat, n: nat, err: int)
    requires CutAt(o, luck, fl, va', 1, k, err) && va' == va + n && n < left && err < 0
    ensures TurnEnds(o, luck, fl, va, left, k, n, err)
  {
  }

  lemma TurnFull(o: Lookups, luck: Luck, fl: Flags, va: nat, left: nat, k: nat, ret: int)
    requires left > 0
    ensures TurnEnds(o, luck, fl, va, left, k, left, ret)
  {
  }

  /** One turn of the loop of `__get_user_pages_locked`: n more pages; `fin` when it breaks out of
      the loop, with `ret` what it returns if it has no page at all. */
  method LockedTurn(g: Gup, mm: Mm, pages: array<Page>, at: nat, va: nat, left: nat, fl: Flags, o: Lookups, k: nat, luck: Luck, ghost b: Origin, ghost got: seq<Page>)
    returns (n: nat, fin: bool, ret: int, dropped: bool, ghost got': seq<Page>, locked: bool, k': nat)
    requires Fetched(g.w, b, g.net, pages[..], o, k, got, fl.Kind()) && at == b.at + |got| && va == b.va + |got|
    requires g.Valid() && LookupsOk(g.w, fl, o) && fl.One() && mm.held && left > 0 && at + left <= pages.Length && k <= o.limit
    modifies g, mm, pages
    ensures Fetched(g.w, b, g.net, pages[..], o, k', got', fl.Kind()) && |got'| == |got| + n
    ensures g.Valid() && k <= k' <= o.limit && locked == mm.held && n <= left
    ensures fin ==> TurnEnds(o, luck, fl, va, left, k', n, ret)
    ensures !fin ==> locked && n < left && k < k'
    ensures !locked ==> dropped
    ensures (dropped ==> fl.unlockable) && (!dropped ==> mm.drops == old(mm.drops))
  {
    dropped, fin := false, true;
    ret, got', locked, k' := GetUserPages(g, mm, pages, at, va, left, fl, o, k, b, got);
    n := if ret > 0 then ret else 0;
    if locked {
      TurnCut(o, luck, fl, va, left, k', n, ret);
    }
    if !fl.unlockable {
      return;
    }
    assert locked || 0 <= ret < left;
    if n == left || locked {
      return;
    }
    dropped := true;
    var ok, err, va' := false, 0, va + n;
    ok, err, got', locked, k' := RetryPage(g, mm, pages, at + n, va', fl, o, k', luck, b, got');
    if !ok {
      ret := err;
      TurnRetried(o, luck, fl, va, va', left, k', n, err);
      return;
    }
    n := n + 1;
    fin := n == left;
    if fin {
      TurnFull(o, luck, fl, va, left, k', ret);
    }
  }

  /** A request ends with this many pages, or with an error: if pages are missing, something cut it off
      at the first address without one. */
  ghost predicate Ended(o: Lookups, luck: Luck, fl: Flags, start: nat, nr: nat, done: int) {
    var m := if done > 0 then done else 0;
    done <= nr && (done == 0 ==> fl.nowait) && (m < nr ==> CutOff(o, luck, fl, start + m, nr - m, done))
  }

  lemma LoopEnds(o: Lookups, luck: Luck, fl: Flags, start: nat, nr: nat, i: nat, va: nat, left: nat, k: nat, n: nat, ret: int)
    requires va == start + i && 0 < left == nr - i && n <= left && k <= o.limit && TurnEnds(o, luck, fl, va, left, k, n, ret)
    ensures var done := if i + n > 0 then i + n else ret; Ended(o, luck, fl, start, nr, done) && i + n == if done > 0 then done else 0
  {
    var done := if i + n > 0 then i + n else ret;
    if i + n < nr {
      assert CutAt(o, luck, fl, start + (i + n), nr - (i + n), k, done);
    }
  }

  /** Its loop, entered with the lock held; `dropped` when the lock was let go on the way. */
  method LockedLoop(g: Gup, mm: Mm, pages: array<Page>, at: nat, start: nat, nr: nat, fl: Flags, o: Lookups, luck: Luck, ghost b: Origin)
    returns (done: int, dropped: bool, ghost got: seq<Page>, locked: bool)
    requires b == Origin(g.net, pages[..], at, start)
    requires g.Valid() && LookupsOk(g.w, fl, o) && fl.One() && mm.held && nr > 0 && at + nr <= pages.Length
    modifies g, mm, pages
    ensures g.Valid() && |got| == if done > 0 then done else 0
    ensures Fetched(g.w, b, g.net, pages[..], o, o.limit, got, fl.Kind())
    ensures Ended(o, luck, fl, start, nr, done)
    ensures locked == mm.held && (!locked ==> dropped) && (dropped ==> fl.unlockable) && (!dropped ==> mm.drops == old(mm.drops))
  {
    var i: nat, k: nat, fin := 0, 0, false;
    done, dropped, got, locked := 0, false, [], true;
    FetchedNone(g.w, b, o, fl.Kind());
    while !fin
      invariant g.Valid() && locked == mm.held && |got| == i <= nr && k <= o.limit
      invariant if fin then i == (if done > 0 then done else 0) && Ended(o, luck, fl, start, nr, done) else locked && i < nr
      invariant Fetched(g.w, b, g.net, pages[..], o, k, got, fl.Kind())
      invariant (!locked ==> dropped) && (dropped ==> fl.unlockable) && (!dropped ==> mm.drops == old(mm.drops))
      decreases !fin, o.limit - k
    {
      var n, ret, d, va, left := 0, 0, false, start + i, nr - i;
      n, fin, ret, d, got, locked, k := LockedTurn(g, mm, pages, at + i, va, left, fl, o, k, luck, b, got);
      if fin {
        LoopEnds(o, luck, fl, start, nr, i, va, left, k, n, ret);
      }
      i := i + n;
      dropped := dropped || d;
      done := if i > 0 then i else ret;
    }
    FetchedLater(g.w, b, g.net, pages[..], o, k, o.limit, got, fl.Kind());
  }

  /** `__get_user_pages_locked` (with `pages`): a prefix of the pages asked for, each the one found at
      its address and grabbed once, or an error and none; the lock is held on return only if it was
      on entry and has never been let go on the way, and `locked` says whether. */
  method GetUserPagesLocked(g: Gup, mm: Mm, pages: array<Page>, at: nat, start: nat, nr: nat, locked: bool, fl: Flags, o: Lookups,
                            luck: Luck, lockFails: bool, ghost b: Origin)
    returns (r: int, ghost got: seq<Page>, locked': bool)
    requires b == Origin(g.net, pages[..], at, start) && locked == mm.held
    requires g.Valid() && LookupsOk(g.w, fl, o) && fl.One() && at + nr <= pages.Length
    modifies g, mm, pages
    ensures g.Valid() && r <= nr && |got| == if r > 0 then r else 0
    ensures Fetched(g.w, b, g.net, pages[..], o, o.limit, got, fl.Kind())
    ensures if nr == 0 then r == 0 else if !locked && lockFails then r == EAGAIN else Ended(o, luck, fl, start, nr, r)
    ensures locked' == mm.held && (!locked ==> !locked') && (locked && !locked' ==> fl.unlockable)
    ensures locked' ==> mm.drops == old(mm.drops)
  {
    r, got, locked' := 0, [], locked;
    FetchedNone(g.w, b, o, fl.Kind());
    FetchedLater(g.w, b, g.net, pages[..], o, 0, o.limit, got, fl.Kind());
    if nr == 0 {
      return;
    }
    var mustUnlock := false;
    if !locked {
      if lockFails {
        r := EAGAIN;
        return;
      }
      mm.ReadLock();
      mustUnlock := true;
    }
    var dropped;
    r, dropped, got, locked' := LockedLoop(g, mm, pages, at, start, nr, fl, o, luck, b);
    if (mustUnlock || dropped) && locked' {
      mm.ReadUnlock();
      locked' := false;
    }
  }
}
