/** The fast path, which walks the page tables without a lock, and its fallback to the slow one. */
module GupFast {
  import opened Common
  import opened GupCounts
  import opened GupUnpin
  import opened GupLongterm
  import opened GupSlow

  const EINVAL: int := -22
  const EOVERFLOW: int := -75

  /** Slots outside [at, at + n) are as they were. */
  ghost predicate Within(was: seq<Page>, ps: seq<Page>, at: nat, n: nat) {
    |ps| == |was| && forall x {:trigger SlotKept(was, ps, x)} :: 0 <= x < |ps| && !(at <= x < at + n) ==> SlotKept(was, ps, x)
  }

  /** The slots from `at` on hold these pages. */
  ghost predicate Holds(ps: seq<Page>, at: nat, got: seq<Page>) {
    at + |got| <= |ps| && forall j {:trigger SlotHolds(ps, at, got, j)} :: 0 <= j < |got| ==> SlotHolds(ps, at, got, j)
  }

  lemma {:induction false} PinsGrabs(w: World, got: seq<Page>, n: nat)
    requires AllIn(w, got) && n <= |got|
    ensures PagesIn(w, Somes(got)) && Pins(Heads(w, Somes(got)), n) == Grabs(w, got[..n])
  {
    if n > 0 {
      PinsGrabs(w, got, n - 1);
      assert got[..n][..n - 1] == got[..n - 1];
    }
  }

  /** The pins behind what has just been got. */
  lemma PinsGot(w: World, pages: seq<Page>, at: nat, got: seq<Page>)
    requires AllIn(w, got) && Holds(pages, at, got)
    ensures pages[at..at + |got|] == got
    ensures PagesIn(w, Somes(got)) && NoNulls(Somes(got)) && AllPins(Heads(w, Somes(got))) == Grabs(w, got)
  {
    forall j | 0 <= j < |got| ensures pages[at..at + |got|][j] == got[j] {
      assert SlotHolds(pages, at, got, j);
    }
    PinsGrabs(w, got, |got|);
    assert got[..|got|] == got;
  }

  // Long-term pins

  /** What the world does during one attempt. */
  datatype Round = Round(lookups: Lookups, luck: Luck, lockFails: bool, coherentFails: nat -> bool, listFails: bool)

  ghost predicate RoundsOk(w: World, fl: Flags, rounds: seq<Round>)
    requires w.Valid()
  {
    forall i :: 0 <= i < |rounds| ==> LookupsOk(w, fl, rounds[i].lookups)
  }

  /** During attempt i each page has been found at its own address, from va on in order. */
  ghost predicate SeenIn(rounds: seq<Round>, i: nat, va: nat, got: seq<Page>) {
    got != [] ==> i < |rounds| && Seen(rounds[i].lookups, 0, rounds[i].lookups.limit, va, got)
  }

  /** Attempt i ends a request for good: with pages or without, as something cuts it off; because the lock
      cannot be had; or because what it had pinned for long can be neither kept nor migrated. */
  ghost predicate EndedIn(rounds: seq<Round>, i: nat, fl: Flags, start: nat, nr: nat, r: int) {
    && i < |rounds|
    && var rd := rounds[i];
    || (nr == 0 && r == 0)
    || (nr > 0 && Ended(rd.lookups, rd.luck, fl, start, nr, r))
    || (rd.lockFails && r == EAGAIN)
    || (fl.longterm && (r == EBUSY || r == ENOMEM))
  }

  predicate AllPinnable(w: World, got: seq<Page>) {
    forall j :: 0 <= j < |got| ==> got[j] in w.folio && w.folio[got[j]] in w.info && w.info[w.folio[got[j]]].pinnable
  }

  /** Checks what has just been pinned: either all of it may stay pinned, or none of it is any more. */
  method KeepOrDrop(g: Gup, pages: array<Page>, at: nat, n: nat, ghost got: seq<Page>, coherentFails: nat -> bool, listFails: bool, ghost net0: Net)
    returns (v: Verdict)
    requires g.Valid() && n == |got| > 0 && Ledger(g.w, net0, g.net, got, Pin) && Holds(pages[..], at, got)
    modifies g
    ensures g.Valid() && g.net == if v.Kept? then old(g.net) else net0
    ensures (v.Kept? <==> AllPinnable(g.w, got)) && (v.Failed? ==> v.err == EBUSY || v.err == ENOMEM)
  {
    PinsGot(g.w, pages[..], at, got);
    assert pages[..][at..at + n] == pages[at..at + n];
    var pofs := Pages(Somes(pages[at..at + n]));
    v := CheckAndMigrate(g, pofs, coherentFails, listFails);
    forall j | 0 <= j < |got| ensures pofs.Entries(g.w)[j] == Some(g.w.folio[got[j]]) {
    }
    if !v.Kept? {
      GainedBack(g.w, net0, old(g.net), g.net, Grabs(g.w, got), Pin);
    }
  }

  /** `__gup_longterm_locked`: whatever is returned is pinned once and may stay so; an error leaves no
      pin behind, however many attempts have been made.  `finished` is false when the rounds given
      are used up with every attempt ending in a migration; `rd` is the attempt that counts. */
  method LongtermLocked(g: Gup, mm: Mm, pages: array<Page>, at: nat, start: nat, nr: nat, locked: bool, fl: Flags, rounds: seq<Round>,
                        ghost net0: Net, ghost ps0: seq<Page>)
    returns (r: int, finished: bool, ghost got: seq<Page>, ghost rd: nat, locked': bool)
    requires net0 == g.net && ps0 == pages[..] && locked == mm.held
    requires g.Valid() && RoundsOk(g.w, fl, rounds) && fl.One() && (fl.longterm ==> fl.pin) && at + nr <= pages.Length
    modifies g, mm, pages
    ensures g.Valid() && r <= nr && |got| == (if r > 0 then r else 0) && (!finished ==> r == 0)
    ensures Ledger(g.w, net0, g.net, got, fl.Kind()) && Holds(pages[..], at, got) && Within(ps0, pages[..], at, nr)
    ensures SeenIn(rounds, rd, start, got) && (fl.longterm ==> AllPinnable(g.w, got))
    ensures finished ==> EndedIn(rounds, rd, fl, start, nr, r)
    ensures locked' == mm.held && (!locked ==> !locked') && (locked' ==> mm.drops == old(mm.drops))
  {
    r, got, rd, locked', finished := 0, [], 0, locked, true;
    LedgerNone(g.w, g.net, fl.Kind());
    var i := 0;
    while i < |rounds|
      invariant 0 <= i <= |rounds| && g.Valid() && g.net == net0 && Within(ps0, pages[..], at, nr) && got == [] && r == 0
      invariant locked' == mm.held && (!locked ==> !locked') && (locked' ==> mm.drops == old(mm.drops))
    {
      ghost var b := Origin(g.net, pages[..], at, start);
      var rd1 := rounds[i];
      var n, more, l := GetUserPagesLocked(g, mm, pages, at, start, nr, locked', fl, rd1.lookups, rd1.luck, rd1.lockFails, b);
      WithinMore(ps0, b.ps, pages[..], at, nr, more);
      locked' := l;
      if n <= 0 || !fl.longterm {
        r, got, rd := n, more, i;
        return;
      }
      var v := KeepOrDrop(g, pages, at, n, more, rd1.coherentFails, rd1.listFails, net0);
      if v.Kept? {
        r, got, rd := n, more, i;
        return;
      }
      if v.Failed? {
        r, rd := v.err, i;
        return;
      }
      i := i + 1;
    }
    finished := false;
  }

  lemma WithinMore(ps0: seq<Page>, ps1: seq<Page>, ps2: seq<Page>, at: nat, nr: nat, got: seq<Page>)
    requires Within(ps0, ps1, at, nr) && Filled(ps1, ps2, at, got) && |got| <= nr
    ensures Within(ps0, ps2, at, nr) && Holds(ps2, at, got)
  {
    forall x | 0 <= x < |ps2| && !(at <= x < at + nr) ensures SlotKept(ps0, ps2, x) {
      assert SlotKept(ps0, ps1, x) && SlotKept(ps1, ps2, x);
    }
  }

  // The page table walk

  const PER_TABLE: nat := 512

  /** The level of the topmost table, and the pages of the whole address space. */
  const TOP: nat := 4
  const SPACE: nat := 0x10_0000_0000_0000

  /** Pages covered by one entry at each level: PTE, PMD, PUD, P4D, PGD. */
  function Size(level: nat): (r: nat)
    ensures r > 0
  {
    if level == 0 then 1 else PER_TABLE * Size(level - 1)
  }

  /** Where an address lies in the entry that covers it. */
  function Offset(level: nat, va: nat): (r: nat)
    ensures r < Size(level)
  {
    va % Size(level)
  }

  /** `p?d_addr_end`: where the entry that covers va ends, or the range does. */
  function AddrEnd(level: nat, va: nat, end: nat): (r: nat)
    requires va <= end
    ensures va <= r <= end && r - va <= Size(level) - Offset(level, va) && (va < end ==> va < r)
  {
    var boundary := va - Offset(level, va) + Size(level);
    if boundary < end then boundary else end
  }

  /** What the walk reads in an entry: nothing usable, a lower table, or the first page mapped there.
      `changed` says that the entry, or the one above it, differs when it is read again, `refused`
      that the folio must not be taken this way. */
  datatype Entry = Absent | Table | Leaf(page: Page, attempts: seq<Attempt>, changed: bool, refused: bool)

  /** The entries, by level and number. */
  type Walk = (nat, nat) -> Entry

  function EntryAt(walk: Walk, level: nat, va: nat): Entry { walk(level, va / Size(level)) }

  /** A leaf maps one folio all over; only PTE, PMD and PUD entries are leaves. */
  ghost predicate EntryOk(w: World, level: nat, e: Entry) {
    && (e.Table? ==> level > 0)
    && (e.Leaf? ==> level <= 2 && OneFolio(w, e.page, Size(level)) && forall a :: a in e.attempts && a.Split? ==> a.was in w.info)
  }

  ghost predicate WalkOk(w: World, walk: Walk) {
    forall level, i {:trigger EntryOk(w, level, walk(level, i))} :: EntryOk(w, level, walk(level, i))
  }

  /** A leaf that is still the same and allowed once its folio has been grabbed. */
  predicate Takes(w: World, fl: Flags, e: Entry) {
    && e.Leaf? && !e.changed && !e.refused
    && e.page in w.folio && w.folio[e.page] in w.info && FastGrabs(w.info[w.folio[e.page]], fl, e.attempts)
  }

  /** The page the walk takes at va, going down from `level`. */
  function Taken(w: World, fl: Flags, walk: Walk, level: nat, va: nat): Opt<Page> {
    var e := EntryAt(walk, level, va);
    if e.Table? && level > 0 then Taken(w, fl, walk, level - 1, va)
    else if Takes(w, fl, e) then Some(e.page + Offset(level, va))
    else None
  }

  /** The entries that cover va are tables from `level` down to the leaf e of level l. */
  ghost predicate LeadsTo(walk: Walk, level: nat, l: nat, va: nat, e: Entry) {
    && l <= level && e.Leaf? && walk(l, va / Size(l)) == e
    && forall m {:trigger EntryAt(walk, m, va)} :: l < m <= level ==> EntryAt(walk, m, va).Table?
  }

  /** Sizes in pages: 4 kB, 2 MB, 1 GB, 512 GB, 256 TB. */
  lemma Sizes()
    ensures Size(0) == 1 && Size(1) == 0x200 && Size(2) == 0x4_0000 && Size(3) == 0x800_0000 && Size(4) == 0x10_0000_0000
  {
    assert Size(1) == PER_TABLE * Size(0) && Size(2) == PER_TABLE * Size(1);
    assert Size(3) == PER_TABLE * Size(2) && Size(4) == PER_TABLE * Size(3);
  }

  /** The walk takes at va the page that a leaf maps there, if on its second look the leaf is unchanged and its
      folio may be taken this way: exactly then. */
  lemma {:induction false} TakenMeans(w: World, fl: Flags, walk: Walk, level: nat, va: nat, page: Page)
    ensures Taken(w, fl, walk, level, va) == Some(page) <==>
            exists l: nat, e :: LeadsTo(walk, level, l, va, e) && !e.changed && !e.refused && page == e.page + va % Size(l)
              && e.page in w.folio && w.folio[e.page] in w.info && FastGrabs(w.info[w.folio[e.page]], fl, e.attempts)
  {
    var top := EntryAt(walk, level, va);
    if top.Table? && level > 0 {
      TakenMeans(w, fl, walk, level - 1, va, page);
      forall l: nat, e ensures LeadsTo(walk, level, l, va, e) <==> LeadsTo(walk, level - 1, l, va, e) {
      }
    } else {
      forall l: nat, e | LeadsTo(walk, level, l, va, e) ensures l == level && e == top {
        assert l < level ==> EntryAt(walk, level, va).Table?;
      }
      if top.Leaf? {
        assert LeadsTo(walk, level, level, va, top);
      }
    }
  }

  /** It takes the page by an entry of the lowest level. */
  predicate PteTaken(w: World, fl: Flags, walk: Walk, level: nat, va: nat) {
    var e := EntryAt(walk, level, va);
    if e.Table? && level > 0 then PteTaken(w, fl, walk, level - 1, va) else level == 0 && Takes(w, fl, e)
  }

  ghost predicate TookJth(w: World, fl: Flags, walk: Walk, level: nat, va: nat, got: seq<Page>, j: nat)
    requires j < |got|
  {
    Taken(w, fl, walk, level, va + j) == Some(got[j])
  }

  ghost predicate Took(w: World, fl: Flags, walk: Walk, level: nat, va: nat, got: seq<Page>) {
    forall j {:trigger TookJth(w, fl, walk, level, va, got, j)} :: 0 <= j < |got| ==> TookJth(w, fl, walk, level, va, got, j)
  }

  /** The addresses up to the end of an entry share it. */
  lemma SameEntry(walk: Walk, level: nat, va: nat, x: nat)
    requires va <= x < va - Offset(level, va) + Size(level)
    ensures EntryAt(walk, level, x) == EntryAt(walk, level, va) && Offset(level, x) == Offset(level, va) + (x - va)
  {
    SameQuotient(Size(level), va, x);
  }

  lemma TookLeaf(w: World, fl: Flags, walk: Walk, level: nat, va: nat, n: nat)
    requires Takes(w, fl, EntryAt(walk, level, va)) && n <= Size(level) - Offset(level, va)
    ensures Took(w, fl, walk, level, va, Stretch(EntryAt(walk, level, va).page + Offset(level, va), n))
  {
    var got := Stretch(EntryAt(walk, level, va).page + Offset(level, va), n);
    forall j | 0 <= j < |got| ensures TookJth(w, fl, walk, level, va, got, j) {
      SameEntry(walk, level, va, va + j);
    }
  }

  lemma TakenBelow(w: World, fl: Flags, walk: Walk, level: nat, va: nat, x: nat)
    requires level > 0 && EntryAt(walk, level, va).Table? && va <= x < va - Offset(level, va) + Size(level)
    ensures Taken(w, fl, walk, level, x) == Taken(w, fl, walk, level - 1, x)
  {
    SameEntry(walk, level, va, x);
  }

  lemma TookBelow(w: World, fl: Flags, walk: Walk, level: nat, va: nat, got: seq<Page>)
    requires level > 0 && EntryAt(walk, level, va).Table? && |got| <= Size(level) - Offset(level, va)
    requires Took(w, fl, walk, level - 1, va, got)
    ensures Took(w, fl, walk, level, va, got)
  {
    forall j | 0 <= j < |got| ensures TookJth(w, fl, walk, level, va, got, j) {
      TakenBelow(w, fl, walk, level, va, va + j);
      assert TookJth(w, fl, walk, level - 1, va, got, j);
    }
  }

  lemma TookJoin(w: World, fl: Flags, walk: Walk, level: nat, va: nat, i: nat, p: seq<Page>, q: seq<Page>)
    requires |p| == i && Took(w, fl, walk, level, va, p) && Took(w, fl, walk, level, va + i, q)
    ensures Took(w, fl, walk, level, va, p + q)
  {
    forall j | 0 <= j < |p + q| ensures TookJth(w, fl, walk, level, va, p + q, j) {
      if j < i {
        assert TookJth(w, fl, walk, level, va, p, j);
      } else {
        assert TookJth(w, fl, walk, level, va + i, q, j - i);
        assert va + i + (j - i) == va + j;
      }
    }
  }

  lemma TookFirst(w: World, fl: Flags, walk: Walk, level: nat, va: nat, got: seq<Page>)
    requires Took(w, fl, walk, level, va, got)
    ensures got != [] ==> Taken(w, fl, walk, level, va).Some?
  {
    if got != [] {
      assert TookJth(w, fl, walk, level, va, got, 0);
      assert va + 0 == va;
    }
  }

  // How far a walk gets

  /** A walk of [va, end) ends: at the end, before the first address whose page it cannot take, or
      because it has left the array.  With va == end the loops run all the same: they take nothing
      unless an entry of the lowest level can be taken. */
  datatype Walked = Walked(ok: bool, n: nat, stray: bool)

  ghost predicate WalkedTo(w: World, fl: Flags, walk: Walk, level: nat, va: nat, end: nat, r: Walked, got: seq<Page>) {
    if va < end then
      if r.stray then Taken(w, fl, walk, level, va).Some?
      else
        && |got| == r.n <= end - va && Took(w, fl, walk, level, va, got)
        && (r.ok <==> r.n == end - va) && (!r.ok ==> Taken(w, fl, walk, level, va + r.n).None?)
    else
      if r.stray then PteTaken(w, fl, walk, level, va)
      else |got| == r.n && (r.n > 0 <==> PteTaken(w, fl, walk, level, va))
  }

  /** `gup_fast_pte_range` for one entry, `gup_fast_pmd_leaf`, `gup_fast_pud_leaf`: n pages from the
      given offset on, all of them if the entry can be taken and none otherwise. */
  method FastLeaf(g: Gup, pages: array<Page>, at: nat, n: nat, fl: Flags, e: Entry, off: nat, ghost size: nat, ghost net0: Net, ghost ps0: seq<Page>)
    returns (ok: bool, stray: bool, ghost got: seq<Page>)
    requires net0 == g.net && ps0 == pages[..]
    requires g.Valid() && fl.One() && at <= pages.Length
    requires e.Leaf? && OneFolio(g.w, e.page, size) && off < size && off + n <= size
    requires forall a :: a in e.attempts && a.Split? ==> a.was in g.w.info
    modifies g, pages
    ensures g.Valid() && (ok <==> Takes(g.w, fl, e)) && (stray <==> ok && at + n > pages.Length)
    ensures got == if ok then Stretch(e.page + off, n) else []
    ensures !stray ==> Has(g.w, net0, g.net, ps0, pages[..], at, got, fl.Kind())
  {
    var page := e.page + off;
    stray, got := false, [];
    HasNone(g.w, g.net, pages[..], at, fl.Kind());
    ok := g.TryGrabFast(page, n, fl, e.attempts);
    if !ok {
      return;
    }
    if e.changed || e.refused {
      DropInverts(g.w, net0, g.w.folio[page], n, fl);
      g.Put(g.w.folio[page], n, fl);
      ok := false;
      return;
    }
    got := Stretch(page, n);
    if at + n > pages.Length {
      stray := true;
      return;
    }
    LedgerSpan(g.w, net0, page, n, fl);
    StorePages(pages, at, page, n, ps0);
  }

  /** Has, and the walk of [va, ...) at this level took it. */
  ghost predicate HasTaken(w: World, a: Net, b: Net, was: seq<Page>, ps: seq<Page>, at: nat, fl: Flags, walk: Walk, level: nat, va: nat, got: seq<Page>) {
    Has(w, a, b, was, ps, at, got, fl.Kind()) && Took(w, fl, walk, level, va, got)
  }

  lemma HasTakenNone(w: World, a: Net, ps: seq<Page>, at: nat, fl: Flags, walk: Walk, level: nat, va: nat)
    requires Fits(w, a) && at <= |ps|
    ensures HasTaken(w, a, a, ps, ps, at, fl, walk, level, va, [])
  {
    HasNone(w, a, ps, at, fl.Kind());
  }

  lemma HasTakenJoin(w: World, a: Net, b: Net, c: Net, was: seq<Page>, ps: seq<Page>, qs: seq<Page>, at: nat, at': nat, fl: Flags, walk: Walk, level: nat, va: nat, va': nat, p: seq<Page>, q: seq<Page>)
    requires HasTaken(w, a, b, was, ps, at, fl, walk, level, va, p)
    requires HasTaken(w, b, c, ps, qs, at', fl, walk, level, va', q) && at' == at + |p| && va' == va + |p|
    ensures HasTaken(w, a, c, was, qs, at, fl, walk, level, va, p + q)
  {
    HasJoin(w, a, b, c, was, ps, qs, at, |p|, p, q, fl.Kind());
    TookJoin(w, fl, walk, level, va, |p|, p, q);
  }

  /** One turn of the loop of `gup_fast_pte_range`. */
  method PteOne(g: Gup, pages: array<Page>, at: nat, va: nat, fl: Flags, walk: Walk, ghost net0: Net, ghost ps0: seq<Page>)
    returns (ok: bool, stray: bool, ghost got: seq<Page>)
    requires net0 == g.net && ps0 == pages[..]
    requires g.Valid() && fl.One() && WalkOk(g.w, walk) && at <= pages.Length
    modifies g, pages
    ensures g.Valid() && (ok <==> Taken(g.w, fl, walk, 0, va).Some?) && (stray <==> ok && at == pages.Length)
    ensures |got| == (if ok then 1 else 0)
    ensures !stray ==> HasTaken(g.w, net0, g.net, ps0, pages[..], at, fl, walk, 0, va, got)
  {
    var e := EntryAt(walk, 0, va);
    assert EntryOk(g.w, 0, e);
    if !e.Leaf? {
      HasNone(g.w, g.net, pages[..], at, fl.Kind());
      return false, false, [];
    }
    ok, stray, got := FastLeaf(g, pages, at, 1, fl, e, 0, 1, net0, ps0);
    PteTakes(g.w, fl, walk, va, ok, got);
  }

  lemma PteTakes(w: World, fl: Flags, walk: Walk, va: nat, ok: bool, got: seq<Page>)
    requires EntryAt(walk, 0, va).Leaf? && ok == Takes(w, fl, EntryAt(walk, 0, va))
    requires got == if ok then Stretch(EntryAt(walk, 0, va).page + 0, 1) else []
    ensures (ok <==> Taken(w, fl, walk, 0, va).Some?) && Took(w, fl, walk, 0, va, got)
  {
    if ok {
      TookLeaf(w, fl, walk, 0, va, 1);
    }
  }

  ghost predicate TakenFrom(w: World, b: Origin, net: Net, ps: seq<Page>, fl: Flags, walk: Walk, level: nat, got: seq<Page>) {
    HasTaken(w, b.net, net, b.ps, ps, b.at, fl, walk, level, b.va, got)
  }

  /** The same, after what has been taken already. */
  method PteNext(g: Gup, pages: array<Page>, at: nat, va: nat, fl: Flags, walk: Walk, ghost b: Origin, ghost got: seq<Page>)
    returns (ok: bool, stray: bool, ghost got': seq<Page>)
    requires TakenFrom(g.w, b, g.net, pages[..], fl, walk, 0, got) && at == b.at + |got| && va == b.va + |got|
    requires g.Valid() && fl.One() && WalkOk(g.w, walk)
    modifies g, pages
    ensures g.Valid() && (ok <==> Taken(g.w, fl, walk, 0, va).Some?) && (stray <==> ok && at == pages.Length)
    ensures |got'| == |got| + if ok && !stray then 1 else 0
    ensures Took(g.w, fl, walk, 0, b.va, got') && (!stray ==> TakenFrom(g.w, b, g.net, pages[..], fl, walk, 0, got'))
  {
    ghost var net1, ps1, more := g.net, pages[..], [];
    got' := got;
    ok, stray, more := PteOne(g, pages, at, va, fl, walk, net1, ps1);
    if !stray {
      HasTakenJoin(g.w, b.net, net1, g.net, b.ps, ps1, pages[..], b.at, at, fl, walk, 0, b.va, va, got, more);
      got' := got + more;
    }
  }

  lemma PteStops(w: World, fl: Flags, walk: Walk, va: nat, end: nat, r: Walked, got: seq<Page>)
    requires |got| == r.n && Took(w, fl, walk, 0, va, got) && va <= end
    requires if r.ok then !r.stray && va + r.n == end && r.n > 0 else va < end ==> va + r.n < end
    requires !r.ok ==> r.stray == Taken(w, fl, walk, 0, va + r.n).Some?
    ensures WalkedTo(w, fl, walk, 0, va, end, r, got)
  {
    TookFirst(w, fl, walk, 0, va, got);
  }

  /** `gup_fast_pte_range`: the loop goes on until it meets `end` or an entry it cannot take.  On an
      empty range it may run past its table; the walk then gives whatever stands there. */
  method PteRange(g: Gup, pages: array<Page>, at: nat, va: nat, end: nat, fl: Flags, walk: Walk, ghost b: Origin)
    returns (r: Walked, ghost got: seq<Page>)
    requires b == Origin(g.net, pages[..], at, va)
    requires g.Valid() && fl.One() && WalkOk(g.w, walk) && va <= end && at <= pages.Length
    modifies g, pages
    ensures g.Valid() && WalkedTo(g.w, fl, walk, 0, va, end, r, got)
    ensures !r.stray ==> Has(g.w, b.net, g.net, b.ps, pages[..], at, got, fl.Kind())
    ensures va < end && at + (end - va) <= pages.Length ==> !r.stray
  {
    var n: nat, ok, stray := 0, true, false;
    got := [];
    HasTakenNone(g.w, g.net, pages[..], at, fl, walk, 0, va);
    while ok && !stray && (n == 0 || va + n != end)
      invariant g.Valid() && |got| == n && at + n <= pages.Length && Took(g.w, fl, walk, 0, va, got)
      invariant !stray ==> TakenFrom(g.w, b, g.net, pages[..], fl, walk, 0, got)
      invariant if ok && !stray then n == 0 || va == end || va + n <= end else va < end ==> va + n < end
      invariant !ok ==> !stray && Taken(g.w, fl, walk, 0, va + n).None?
      invariant stray ==> at + n == pages.Length && Taken(g.w, fl, walk, 0, va + n).Some?
      decreases ok && !stray, pages.Length - at - n
    {
      ok, stray, got := PteNext(g, pages, at + n, va + n, fl, walk, b, got);
      n := if ok && !stray then n + 1 else n;
    }
    r := Walked(ok && !stray, n, stray);
    PteStops(g.w, fl, walk, va, end, r, got);
  }

  /** An entry that is a table takes what the table takes. */
  lemma WalkedBelow(w: World, fl: Flags, walk: Walk, level: nat, va: nat, next: nat, r: Walked, got: seq<Page>)
    requires level > 0 && EntryAt(walk, level, va).Table? && va <= next && next - va <= Size(level) - Offset(level, va)
    requires WalkedTo(w, fl, walk, level - 1, va, next, r, got)
    ensures WalkedTo(w, fl, walk, level, va, next, r, got)
  {
    if va < next {
      TakenBelow(w, fl, walk, level, va, va);
      if !r.stray {
        TookBelow(w, fl, walk, level, va, got);
        if !r.ok {
          TakenBelow(w, fl, walk, level, va, va + r.n);
        }
      }
    }
  }

  /** What a leaf contributes. */
  lemma WalkedLeaf(w: World, fl: Flags, walk: Walk, level: nat, va: nat, next: nat, ok: bool, stray: bool, got: seq<Page>)
    requires level > 0 && EntryAt(walk, level, va).Leaf? && va <= next && next - va <= Size(level) - Offset(level, va)
    requires ok == Takes(w, fl, EntryAt(walk, level, va)) && (stray ==> ok && va < next)
    requires got == if ok then Stretch(EntryAt(walk, level, va).page + Offset(level, va), next - va) else []
    ensures WalkedTo(w, fl, walk, level, va, next, Walked(ok, |got|, stray), got)
  {
    if ok {
      TookLeaf(w, fl, walk, level, va, next - va);
    }
  }

  method LeafEntry(g: Gup, pages: array<Page>, at: nat, level: nat, va: nat, next: nat, fl: Flags, walk: Walk, ghost b: Origin)
    returns (r: Walked, ghost got: seq<Page>)
    requires b == Origin(g.net, pages[..], at, va)
    requires g.Valid() && fl.One() && EntryOk(g.w, level, EntryAt(walk, level, va)) && EntryAt(walk, level, va).Leaf? && at <= pages.Length
    requires level > 0 && va <= next && next - va <= Size(level) - Offset(level, va)
    modifies g, pages
    ensures g.Valid() && WalkedTo(g.w, fl, walk, level, va, next, r, got)
    ensures !r.stray ==> Has(g.w, b.net, g.net, b.ps, pages[..], at, got, fl.Kind())
    ensures va < next && at + (next - va) <= pages.Length ==> !r.stray
  {
    var ok, stray;
    ok, stray, got := FastLeaf(g, pages, at, next - va, fl, EntryAt(walk, level, va), Offset(level, va), Size(level), b.net, b.ps);
    WalkedLeaf(g.w, fl, walk, level, va, next, ok, stray, got);
    r := Walked(ok, if ok then next - va else 0, stray);
  }

  /** One entry above the lowest level. */
  method FastEntry(g: Gup, pages: array<Page>, at: nat, level: nat, va: nat, next: nat, fl: Flags, walk: Walk, ghost b: Origin)
    returns (r: Walked, ghost got: seq<Page>)
    requires b == Origin(g.net, pages[..], at, va)
    requires g.Valid() && fl.One() && WalkOk(g.w, walk) && at <= pages.Length
    requires level > 0 && va <= next && next - va <= Size(level) - Offset(level, va)
    modifies g, pages
    ensures g.Valid() && WalkedTo(g.w, fl, walk, level, va, next, r, got)
    ensures !r.stray ==> Has(g.w, b.net, g.net, b.ps, pages[..], at, got, fl.Kind())
    ensures va < next && at + (next - va) <= pages.Length ==> !r.stray
    decreases level, 1
  {
    var e := EntryAt(walk, level, va);
    assert EntryOk(g.w, level, e);
    match e
    case Absent =>
      r, got := Walked(false, 0, false), [];
      HasNone(g.w, g.net, pages[..], at, fl.Kind());
    case Leaf(_, _, _, _) =>
      r, got := LeafEntry(g, pages, at, level, va, next, fl, walk, b);
    case Table =>
      r, got := TableEntry(g, pages, at, level, va, next, fl, walk, b);
  }

  method TableEntry(g: Gup, pages: array<Page>, at: nat, level: nat, va: nat, next: nat, fl: Flags, walk: Walk, ghost b: Origin)
    returns (r: Walked, ghost got: seq<Page>)
    requires b == Origin(g.net, pages[..], at, va)
    requires g.Valid() && fl.One() && WalkOk(g.w, walk) && EntryAt(walk, level, va).Table? && at <= pages.Length
    requires level > 0 && va <= next && next - va <= Size(level) - Offset(level, va)
    modifies g, pages
    ensures g.Valid() && WalkedTo(g.w, fl, walk, level, va, next, r, got)
    ensures !r.stray ==> Has(g.w, b.net, g.net, b.ps, pages[..], at, got, fl.Kind())
    ensures va < next && at + (next - va) <= pages.Length ==> !r.stray
    decreases level, 0
  {
    r, got := FastRange(g, pages, at, level - 1, va, next, fl, walk, b);
    WalkedBelow(g.w, fl, walk, level, va, next, r, got);
  }

  /** The same, after what has been taken already. */
  method EntryNext(g: Gup, pages: array<Page>, at: nat, level: nat, va: nat, next: nat, fl: Flags, walk: Walk, ghost b: Origin, ghost got: seq<Page>)
    returns (r: Walked, ghost got': seq<Page>)
    requires TakenFrom(g.w, b, g.net, pages[..], fl, walk, level, got) && at == b.at + |got| && va == b.va + |got|
    requires g.Valid() && fl.One() && WalkOk(g.w, walk)
    requires level > 0 && va < next && next - va <= Size(level) - Offset(level, va)
    modifies g, pages
    ensures g.Valid() && Stopped(g.w, fl, walk, level, va, next, r)
    ensures !r.stray ==> TakenFrom(g.w, b, g.net, pages[..], fl, walk, level, got') && |got'| == |got| + r.n
    ensures at + (next - va) <= pages.Length ==> !r.stray
    decreases level, 2
  {
    ghost var c, more := Origin(g.net, pages[..], at, va), [];
    got' := got;
    r, more := FastEntry(g, pages, at, level, va, next, fl, walk, c);
    if !r.stray {
      HasTakenJoin(g.w, b.net, c.net, g.net, b.ps, c.ps, pages[..], b.at, at, fl, walk, level, b.va, va, got, more);
      got' := got + more;
    }
  }

  /** Where a walk of [va, end) stops, without what it has got. */
  ghost predicate Stopped(w: World, fl: Flags, walk: Walk, level: nat, va: nat, end: nat, r: Walked)
    requires va < end
  {
    if r.stray then Taken(w, fl, walk, level, va).Some?
    else r.n <= end - va && (r.ok <==> r.n == end - va) && (!r.ok ==> Taken(w, fl, walk, level, va + r.n).None?)
  }

  lemma RangeStops(w: World, fl: Flags, walk: Walk, level: nat, va: nat, addr: nat, next: nat, end: nat, e: Walked, got: seq<Page>, got': seq<Page>)
    requires va <= addr < next <= end && |got| == addr - va && Took(w, fl, walk, level, va, got)
    requires Stopped(w, fl, walk, level, addr, next, e) && (e.ok && !e.stray ==> next == end)
    requires !e.stray ==> |got'| == |got| + e.n && Took(w, fl, walk, level, va, got')
    ensures WalkedTo(w, fl, walk, level, va, end, Walked(e.ok, addr - va + e.n, e.stray), got')
  {
    TookFirst(w, fl, walk, level, va, got);
  }

  /** `gup_fast_pgd_range` and the ranges below it, down to the PMD: a do-while loop, which makes one
      turn even if there is nothing to do. */
  method TableRange(g: Gup, pages: array<Page>, at: nat, level: nat, va: nat, end: nat, fl: Flags, walk: Walk, ghost b: Origin)
    returns (r: Walked, ghost got: seq<Page>)
    requires b == Origin(g.net, pages[..], at, va)
    requires g.Valid() && fl.One() && WalkOk(g.w, walk) && va <= end && at <= pages.Length && level > 0
    modifies g, pages
    ensures g.Valid() && WalkedTo(g.w, fl, walk, level, va, end, r, got)
    ensures !r.stray ==> Has(g.w, b.net, g.net, b.ps, pages[..], at, got, fl.Kind())
    ensures va < end && at + (end - va) <= pages.Length ==> !r.stray
    decreases level, 3
  {
    if va == end {
      r, got := FastEntry(g, pages, at, level, va, AddrEnd(level, va, end), fl, walk, b);
      return;
    }
    var addr := va;
    got := [];
    HasTakenNone(g.w, g.net, pages[..], at, fl, walk, level, va);
    while true
      invariant g.Valid() && va <= addr < end && |got| == addr - va
      invariant TakenFrom(g.w, b, g.net, pages[..], fl, walk, level, got)
      decreases end - addr
    {
      var next := AddrEnd(level, addr, end);
      ghost var was := got;
      var e;
      e, got := EntryNext(g, pages, at + (addr - va), level, addr, next, fl, walk, b, got);
      if !e.ok || e.stray || next == end {
        RangeStops(g.w, fl, walk, level, va, addr, next, end, e, was, got);
        r := Walked(e.ok, addr - va + e.n, e.stray);
        return;
      }
      addr := next;
    }
  }

  /** The pages from va up to `end`, or up to the first that the walk cannot take. */
  method FastRange(g: Gup, pages: array<Page>, at: nat, level: nat, va: nat, end: nat, fl: Flags, walk: Walk, ghost b: Origin)
    returns (r: Walked, ghost got: seq<Page>)
    requires b == Origin(g.net, pages[..], at, va)
    requires g.Valid() && fl.One() && WalkOk(g.w, walk) && va <= end && at <= pages.Length
    modifies g, pages
    ensures g.Valid() && WalkedTo(g.w, fl, walk, level, va, end, r, got)
    ensures !r.stray ==> Has(g.w, b.net, g.net, b.ps, pages[..], at, got, fl.Kind())
    ensures va < end && at + (end - va) <= pages.Length ==> !r.stray
    decreases level, 4
  {
    if level == 0 {
      r, got := PteRange(g, pages, at, va, end, fl, walk, b);
    } else {
      r, got := TableRange(g, pages, at, level, va, end, fl, walk, b);
    }
  }

  // The whole

  /** Whether the walk may be tried at all, and whether a fork began before or during it. */
  datatype Fork = Fork(permitted: bool, before: bool, during: bool)

  predicate Blocked(fl: Flags, fork: Fork) { !fork.permitted || (fl.pin && fork.before) }

  predicate RolledBack(fl: Flags, fork: Fork) { fl.pin && fork.during }

  /** What the walk takes at `start` for a request of no pages.  At address 0 the end of the range is
      0 as well, which `p?d_addr_end` takes for the top of the address space. */
  predicate ZeroTaken(w: World, fl: Flags, walk: Walk, start: nat) {
    if start == 0 then Taken(w, fl, walk, TOP, start).Some? else PteTaken(w, fl, walk, TOP, start)
  }

  /** The walk got n pages and no more: none if it was kept from it or a fork came in between, and
      otherwise those up to the first it cannot take. */
  ghost predicate Exact(w: World, fl: Flags, walk: Walk, fork: Fork, start: nat, nr: nat, got: seq<Page>) {
    if Blocked(fl, fork) || RolledBack(fl, fork) then got == []
    else Took(w, fl, walk, TOP, start, got) && (|got| < nr ==> Taken(w, fl, walk, TOP, start + |got|).None?)
  }

  /** `gup_fast`; `wrote` slots have been written. */
  method Fast(g: Gup, pages: array<Page>, start: nat, end: nat, fl: Flags, walk: Walk, fork: Fork, ghost b: Origin)
    returns (n: nat, stray: bool, ghost wrote: nat, ghost got: seq<Page>)
    requires b == Origin(g.net, pages[..], 0, start)
    requires g.Valid() && fl.One() && WalkOk(g.w, walk) && start <= end && end - start <= pages.Length
    modifies g, pages
    ensures g.Valid()
    ensures !stray ==> |got| == n && Ledger(g.w, b.net, g.net, got, fl.Kind()) && Holds(pages[..], 0, got) && Within(b.ps, pages[..], 0, wrote)
    ensures !stray ==> n == if RolledBack(fl, fork) then 0 else wrote
    ensures start < end ==> !stray && wrote <= end - start && Exact(g.w, fl, walk, fork, start, end - start, got)
    ensures start == end ==> (stray || wrote > 0 <==> !Blocked(fl, fork) && ZeroTaken(g.w, fl, walk, start))
    ensures !stray && (!fork.permitted || (fl.pin && (fork.before || fork.during))) ==> n == 0 && g.net == b.net
  {
    n, stray, wrote, got := 0, false, 0, [];
    LedgerNone(g.w, g.net, fl.Kind());
    if !fork.permitted || (fl.pin && fork.before) {
      return;
    }
    var stop := if end == 0 then SPACE else end;
    var r;
    r, got := FastRange(g, pages, 0, TOP, start, stop, fl, walk, b);
    n, stray, wrote := r.n, r.stray, r.n;
    if stray {
      return;
    }
    WalkedSome(g.w, fl, walk, start, stop, r, got);
    WithinMore(b.ps, b.ps, pages[..], 0, n, got);
    if fl.pin && fork.during {
      Unwind(g, pages, n, got, b.net);
      n, got := 0, [];
    }
  }

  lemma WalkedSome(w: World, fl: Flags, walk: Walk, va: nat, end: nat, r: Walked, got: seq<Page>)
    requires !r.stray && WalkedTo(w, fl, walk, TOP, va, end, r, got)
    ensures va < end ==> (r.n > 0 <==> Taken(w, fl, walk, TOP, va).Some?)
  {
    if va < end {
      TookFirst(w, fl, walk, TOP, va, got);
    }
  }

  /** After a fork every pin is dropped again. */
  method Unwind(g: Gup, pages: array<Page>, n: nat, ghost got: seq<Page>, ghost net0: Net)
    requires g.Valid() && n == |got| && Ledger(g.w, net0, g.net, got, Pin) && Holds(pages[..], 0, got)
    modifies g
    ensures g.Valid() && g.net == net0
  {
    ghost var net1 := g.net;
    PinsGot(g.w, pages[..], 0, got);
    assert pages[..][0..0 + n] == pages[..n];
    FastUnpin(g, Somes(pages[..n]));
    GainedBack(g.w, net0, net1, g.net, Grabs(g.w, got), Pin);
  }

  /** The arguments of a fast request, and the limits they are checked against. */
  datatype Request = Request(start: nat, nr: nat, taskMax: nat, addrMax: nat, badFlags: bool) {
    predicate Accepted() { !badFlags && start + nr <= addrMax && start + nr <= taskMax }
  }

  /** What is promised: at most nr pages, in the first slots and in no other, each grabbed once; and
      with no pages no counter has changed. */
  ghost predicate Promised(w: World, b: Origin, net: Net, ps: seq<Page>, kind: Kind, nr: nat, r: int, wrote: nat, stray: bool, got: seq<Page>) {
    && !stray && wrote <= nr && r <= nr && |got| == (if r > 0 then r else 0)
    && Ledger(w, b.net, net, got, kind) && Holds(ps, 0, got) && Within(b.ps, ps, 0, nr)
  }

  /** A request for no pages at an address where the walk takes one all the same. */
  predicate Overruns(w: World, fl: Flags, walk: Walk, fork: Fork, q: Request) {
    q.nr == 0 && q.Accepted() && !Blocked(fl, fork) && ZeroTaken(w, fl, walk, q.start)
  }

  /** Where the pages come from: the walk, and behind that the lookups of attempt rd, each at its
      own address. */
  ghost predicate Sourced(w: World, fl: Flags, walk: Walk, fork: Fork, rounds: seq<Round>, q: Request, fast: nat, rd: nat, got: seq<Page>) {
    && fast <= |got|
    && (q.Accepted() && q.nr > 0 ==> Exact(w, fl, walk, fork, q.start, q.nr, got[..fast]))
    && SeenIn(rounds, rd, q.start + fast, got[fast..])
    && (fl.fastOnly ==> fast == |got|)
  }

  /** An accepted request that may use the slow path has used it for what the walk has left: it ended with
      `slow`, which is added to the walk's pages, or is the result if there are none. */
  ghost predicate WentOn(rounds: seq<Round>, rd: nat, fl: Flags, q: Request, fast: nat, slow: int, got: seq<Page>, r: int) {
    q.Accepted() && !fl.fastOnly && fast < q.nr ==>
      && EndedIn(rounds, rd, fl.(unlockable := true), q.start + fast, q.nr - fast, slow)
      && |got| == fast + (if slow > 0 then slow else 0) && r == if slow < 0 && fast > 0 then fast else slow + fast
  }

  /** The promise is kept exactly if the request does not overrun, and then the pages are those that
      the addresses map to.  A request that overruns leaves the array, or has grabbed, stored and
      (unless a fork undoes it) reported pages nobody asked for. */
  ghost predicate Outcome(w: World, b: Origin, net: Net, ps: seq<Page>, fl: Flags, walk: Walk, fork: Fork, rounds: seq<Round>, q: Request,
                          r: int, stray: bool, wrote: nat, got: seq<Page>, fast: nat, rd: nat) {
    && (Promised(w, b, net, ps, fl.Kind(), q.nr, r, wrote, stray, got) <==> !Overruns(w, fl, walk, fork, q))
    && (!Overruns(w, fl, walk, fork, q) ==> Sourced(w, fl, walk, fork, rounds, q, fast, rd, got))
    && (Overruns(w, fl, walk, fork, q) && !stray ==>
          wrote > 0 && r == |got| && Ledger(w, b.net, net, got, fl.Kind()) && (RolledBack(fl, fork) || r > 0))
  }

  /** A rejected request. */
  lemma Rejected(w: World, b: Origin, fl: Flags, walk: Walk, fork: Fork, rounds: seq<Round>, q: Request, r: int)
    requires !q.Accepted() && r < 0 && Fits(w, b.net)
    ensures Outcome(w, b, b.net, b.ps, fl, walk, fork, rounds, q, r, false, 0, [], 0, 0)
  {
    LedgerNone(w, b.net, fl.Kind());
  }

  /** What `gup_fast` leaves. */
  ghost predicate WalkDone(w: World, b: Origin, net: Net, ps: seq<Page>, fl: Flags, walk: Walk, fork: Fork, q: Request, stray: bool, wrote: nat, got: seq<Page>) {
    && (!stray ==> Ledger(w, b.net, net, got, fl.Kind()) && Holds(ps, 0, got) && Within(b.ps, ps, 0, wrote)
                   && |got| == if RolledBack(fl, fork) then 0 else wrote)
    && (q.nr > 0 ==> !stray && wrote <= q.nr && Exact(w, fl, walk, fork, q.start, q.nr, got))
    && (q.nr == 0 ==> (stray || wrote > 0 <==> !Blocked(fl, fork) && ZeroTaken(w, fl, walk, q.start)))
  }

  /** A request that ends with the walk. */
  lemma WalkOnly(w: World, b: Origin, net: Net, ps: seq<Page>, fl: Flags, walk: Walk, fork: Fork, rounds: seq<Round>, q: Request, stray: bool, wrote: nat, got: seq<Page>)
    requires q.Accepted() && WalkDone(w, b, net, ps, fl, walk, fork, q, stray, wrote, got)
    ensures Outcome(w, b, net, ps, fl, walk, fork, rounds, q, |got|, stray, wrote, got, |got|, 0)
  {
    assert got[..|got|] == got && got[|got|..] == [];
    if q.nr == 0 && !stray && wrote == 0 {
      assert got == [];
    }
    if q.nr > 0 {
      forall x | 0 <= x < |ps| && !(0 <= x < 0 + q.nr) ensures SlotKept(b.ps, ps, x) {
      }
    }
  }

  /** The rest of it by the slow path. */
  method SlowRest(g: Gup, mm: Mm, pages: array<Page>, q: Request, n: nat, fl: Flags, walk: Walk, fork: Fork, rounds: seq<Round>, ghost b: Origin, ghost wrote: nat, ghost lp: seq<Page>)
    returns (r: int, ghost got: seq<Page>, ghost rd: nat, ghost slow: int, ghost finished: bool)
    requires q.Accepted() && !fl.fastOnly && n == |lp| < q.nr <= pages.Length && WalkDone(g.w, b, g.net, pages[..], fl, walk, fork, q, false, wrote, lp)
    requires g.Valid() && fl.One() && (fl.longterm ==> fl.pin) && RoundsOk(g.w, Unlockable(fl), rounds) && !mm.held
    modifies g, mm, pages
    ensures g.Valid() && !mm.held && (r == 0 ==> fl.nowait || !finished) && (finished ==> WentOn(rounds, rd, fl, q, n, slow, got, r))
    ensures Outcome(g.w, b, g.net, pages[..], fl, walk, fork, rounds, q, r, false, wrote, got, n, rd)
  {
    ghost var net1, ps1, more := g.net, pages[..], [];
    var ret, fin, locked;
    ret, fin, more, rd, locked := LongtermLocked(g, mm, pages, n, q.start + n, q.nr - n, false, Unlockable(fl), rounds, net1, ps1);
    WalkAndRest(g.w, b, net1, g.net, ps1, pages[..], fl, walk, fork, rounds, q, n, wrote, lp, more, ret, rd);
    got, finished, slow := lp + more, fin, ret;
    r := if ret < 0 && n > 0 then n else ret + n;
  }

  lemma WalkAndRest(w: World, b: Origin, net1: Net, net2: Net, ps1: seq<Page>, ps2: seq<Page>, fl: Flags, walk: Walk, fork: Fork, rounds: seq<Round>, q: Request,
                    n: nat, wrote: nat, lp: seq<Page>, lq: seq<Page>, ret: int, rd: nat)
    requires q.Accepted() && !fl.fastOnly && n == |lp| < q.nr && WalkDone(w, b, net1, ps1, fl, walk, fork, q, false, wrote, lp)
    requires ret <= q.nr - n && |lq| == (if ret > 0 then ret else 0)
    requires Ledger(w, net1, net2, lq, Unlockable(fl).Kind()) && Holds(ps2, n, lq) && Within(ps1, ps2, n, q.nr - n) && SeenIn(rounds, rd, q.start + n, lq)
    ensures Outcome(w, b, net2, ps2, fl, walk, fork, rounds, q, if ret < 0 && n > 0 then n else ret + n, false, wrote, lp + lq, n, rd)
  {
    FallbackJoin(w, b.net, net1, net2, b.ps, ps1, ps2, q.nr, n, wrote, lp, lq, fl);
    assert (lp + lq)[..n] == lp && (lp + lq)[n..] == lq;
  }

  /** `gup_fast_fallback`. */
  method FastFallback(g: Gup, mm: Mm, pages: array<Page>, q: Request, fl: Flags, walk: Walk, fork: Fork, rounds: seq<Round>, ghost b: Origin)
    returns (r: int, stray: bool, ghost wrote: nat, ghost got: seq<Page>, ghost fast: nat, ghost rd: nat, ghost slow: int, ghost finished: bool)
    requires b == Origin(g.net, pages[..], 0, q.start)
    requires g.Valid() && fl.One() && (fl.longterm ==> fl.pin) && WalkOk(g.w, walk) && RoundsOk(g.w, Unlockable(fl), rounds)
    requires q.nr <= pages.Length && !mm.held
    modifies g, mm, pages
    ensures g.Valid() && !mm.held
    ensures Outcome(g.w, b, g.net, pages[..], fl, walk, fork, rounds, q, r, stray, wrote, got, fast, rd)
    ensures !q.Accepted() ==> r == if q.badFlags then EINVAL else if q.start + q.nr > q.addrMax then EOVERFLOW else EFAULT
    ensures q.Accepted() && r == 0 && !stray ==> q.nr == 0 || fl.fastOnly || fl.nowait || !finished
    ensures finished && !stray ==> WentOn(rounds, rd, fl, q, fast, slow, got, r)
    ensures !stray && (!fork.permitted || (fl.pin && (fork.before || fork.during))) ==> fast == 0
  {
    r, stray, wrote, got, fast, rd, slow, finished := EINVAL, false, 0, [], 0, 0, 0, true;
    if !q.badFlags {
      r := if q.start + q.nr > q.addrMax then EOVERFLOW else EFAULT;
    }
    if q.badFlags || q.start + q.nr > q.addrMax || q.start + q.nr > q.taskMax {
      Rejected(g.w, b, fl, walk, fork, rounds, q, r);
      return;
    }
    var n;
    n, stray, wrote, got := Fast(g, pages, q.start, q.start + q.nr, fl, walk, fork, b);
    r, fast := n, |got|;
    WalkOnly(g.w, b, g.net, pages[..], fl, walk, fork, rounds, q, stray, wrote, got);
    if stray || n == q.nr || fl.fastOnly {
      return;
    }
    if n > q.nr {
      stray := true;   // the number of pages still to get wraps around
      return;
    }
    r, got, rd, slow, finished := SlowRest(g, mm, pages, q, n, fl, walk, fork, rounds, b, wrote, got);
  }

  function Unlockable(fl: Flags): Flags { fl.(unlockable := true) }

  lemma FallbackJoin(w: World, a: Net, b: Net, c: Net, ps0: seq<Page>, ps1: seq<Page>, ps2: seq<Page>, nr: nat, n: nat, wrote: nat, lp: seq<Page>, lq: seq<Page>, fl: Flags)
    requires n == |lp| <= nr && wrote <= nr && Ledger(w, a, b, lp, fl.Kind()) && Ledger(w, b, c, lq, Unlockable(fl).Kind())
    requires Holds(ps1, 0, lp) && Within(ps0, ps1, 0, wrote) && Holds(ps2, n, lq) && Within(ps1, ps2, n, nr - n)
    ensures Ledger(w, a, c, lp + lq, fl.Kind()) && Holds(ps2, 0, lp + lq) && Within(ps0, ps2, 0, nr)
  {
    LedgerJoin(w, a, b, c, lp, lq, fl.Kind());
    forall j | 0 <= j < |lp + lq| ensures SlotHolds(ps2, 0, lp + lq, j) {
      if j < n {
        assert SlotHolds(ps1, 0, lp, j) && SlotKept(ps1, ps2, j);
      } else {
        assert SlotHolds(ps2, n, lq, j - n);
      }
    }
    forall x | 0 <= x < |ps2| && !(0 <= x < 0 + nr) ensures SlotKept(ps0, ps2, x) {
      assert SlotKept(ps0, ps1, x) && SlotKept(ps1, ps2, x);
    }
  }

  // A request for no pages that overruns: one page is mapped at `start`, by an ordinary entry

  const ONE_PAGE := World(map[7 := 0], map[0 := Info(7, 1, false, false, false, true, false)])
  const ONE_ENTRY: Walk := (level: nat, i: nat) => if level > 0 then Table else if i == 5 then Leaf(7, [], false, false) else Absent
  const GETS := Flags(true, false, false, false, false, false, true)

  lemma ZeroPagesOverrun()
    ensures ONE_PAGE.Valid() && WalkOk(ONE_PAGE, ONE_ENTRY)
    ensures Overruns(ONE_PAGE, GETS, ONE_ENTRY, Fork(true, false, false), Request(5, 0, 100, 100, false))
  {
    forall level, i ensures EntryOk(ONE_PAGE, level, ONE_ENTRY(level, i)) {
    }
    assert PteTaken(ONE_PAGE, GETS, ONE_ENTRY, 0, 5);
    assert PteTaken(ONE_PAGE, GETS, ONE_ENTRY, 1, 5);
    assert PteTaken(ONE_PAGE, GETS, ONE_ENTRY, 2, 5);
    assert PteTaken(ONE_PAGE, GETS, ONE_ENTRY, 3, 5);
  }
}
