/** Long-term pins: folios that may not be pinned for long are migrated away, and then every pin is
    dropped so that the caller can start again. */
module GupLongterm {
  import opened Common
  import opened GupCounts
  import opened GupUnpin

  /** `struct pages_or_folios`. */
  datatype Pofs = Pages(pages: seq<Opt<Page>>) | Folios(folios: seq<Opt<FolioId>>) {
    function Len(): nat { if Pages? then |pages| else |folios| }

    ghost predicate In(w: World) { if Pages? then PagesIn(w, pages) else FoliosIn(w, folios) }

    function Entries(w: World): (r: seq<Opt<FolioId>>)
      requires In(w)
      ensures |r| == Len()
    {
      if Pages? then Heads(w, pages) else folios
    }

    /** `pofs_clear_entry`. */
    function Cleared(i: nat): (r: Pofs)
      requires i < Len()
      ensures r.Len() == Len()
    {
      if Pages? then Pages(pages[i := None]) else Folios(folios[i := None])
    }
  }

  lemma EntriesIn(w: World, p: Pofs)
    requires w.Valid() && p.In(w)
    ensures FoliosIn(w, p.Entries(w))
  {
  }

  ghost predicate Full(w: World, p: Pofs)
    requires p.In(w)
  {
    forall i :: 0 <= i < p.Len() ==> p.Entries(w)[i].Some?
  }

  // Collecting

  /** `pofs_next_folio`: the entry after the run of entries that belong to the same large folio. */
  method NextFolio(w: World, p: Pofs, f: FolioId, i: nat) returns (j: nat)
    requires w.Valid() && p.In(w) && Full(w, p) && i < p.Len() && p.Entries(w)[i] == Some(f) && f in w.info
    ensures i < j <= p.Len() && forall k :: i <= k < j ==> p.Entries(w)[k] == Some(f)
  {
    var es := p.Entries(w);
    j := i + 1;
    if p.Pages? && w.info[f].Large() {
      assert NoNulls(p.pages) by {
        forall k | 0 <= k < |p.pages| ensures p.pages[k].Some? {
          assert es[k].Some?;
        }
      }
      while j < p.Len() && w.info[f].Covers(p.pages[j].v)
        invariant i < j <= p.Len() && forall k :: i <= k < j ==> es[k] == Some(f)
      {
        assert es[j].Some? && p.pages[j].v in w.folio;
        j := j + 1;
      }
    }
  }

  /** `collect_longterm_unpinnable_folios`: how many it finds. */
  method Collect(w: World, p: Pofs) returns (collected: nat)
    requires w.Valid() && p.In(w) && Full(w, p) && p.Len() > 0
    ensures collected == 0 <==> forall i :: 0 <= i < p.Len() ==> w.info[p.Entries(w)[i].v].pinnable
  {
    var es := p.Entries(w);
    EntriesIn(w, p);
    collected := 0;
    var i: nat := 0;
    while i < p.Len()
      invariant i <= p.Len()
      invariant collected == 0 <==> forall k :: 0 <= k < i ==> w.info[es[k].v].pinnable
    {
      var f := es[i].v;
      if !w.info[f].pinnable {
        collected := collected + 1;
      }
      var j := NextFolio(w, p, f, i);
      assert es[i] == Some(f);
      i := j;
    }
  }

  // Migrating

  /** Entries before i have been cleared, the others are as they were. */
  ghost predicate Left(w: World, p: Pofs, es: seq<Opt<FolioId>>, i: nat) {
    && p.In(w) && p.Len() == |es| && i <= |es|
    && forall k :: 0 <= k < |es| ==> p.Entries(w)[k] == if k < i then None else es[k]
  }

  lemma LeftStep(w: World, p: Pofs, es: seq<Opt<FolioId>>, i: nat)
    requires Left(w, p, es, i) && i < |es|
    ensures Left(w, p.Cleared(i), es, i + 1)
  {
    var q := p.Cleared(i);
    assert q.In(w);
    forall k | 0 <= k < |es| ensures q.Entries(w)[k] == if k < i + 1 then None else es[k] {
      assert p.Entries(w)[k] == if k < i then None else es[k];
    }
  }

  lemma {:induction false} LeftPins(es: seq<Opt<FolioId>>, left: seq<Opt<FolioId>>, i: nat, n: nat)
    requires |left| == |es| && i <= n <= |es| && forall k :: 0 <= k < |es| ==> left[k] == if k < i then None else es[k]
    ensures Pins(left, n) + Pins(es, i) == Pins(es, n)
  {
    if n == i {
      NoPins(left, i);
    } else {
      LeftPins(es, left, i, n - 1);
    }
  }

  lemma {:induction false} NoPins(es: seq<Opt<FolioId>>, n: nat)
    requires n <= |es| && forall k :: 0 <= k < n ==> es[k].None?
    ensures Pins(es, n) == multiset{}
  {
    if n > 0 {
      NoPins(es, n - 1);
    }
  }

  /** `pofs_unpin` of what is left. */
  method UnpinLeft(g: Gup, p: Pofs, es: seq<Opt<FolioId>>, i: nat, ghost base: Net)
    requires g.Valid() && Left(g.w, p, es, i) && FoliosIn(g.w, es) && forall k :: 0 <= k < |es| ==> es[k].Some?
    requires Gained(g.w, g.net, base, Pins(es, i), Pin)
    modifies g
    ensures g.Valid() && Gained(g.w, g.net, base, AllPins(es), Pin)
  {
    ghost var mid := g.net;
    if p.Pages? {
      LeftNulls(g.w, p, es, i);
      var ok := UnpinUserPages(g, p.pages);
    } else {
      UnpinFolios(g, p.folios);
    }
    LeftPins(es, p.Entries(g.w), i, |es|);
    GainedBoth(g.w, g.net, mid, base, AllPins(p.Entries(g.w)), Pins(es, i), Pin);
  }

  lemma LeftNulls(w: World, p: Pofs, es: seq<Opt<FolioId>>, i: nat)
    requires Left(w, p, es, i) && p.Pages? && forall k :: 0 <= k < |es| ==> es[k].Some?
    ensures NullPrefix(p.pages)
  {
    forall j, k | 0 <= j < k < |p.pages| && p.pages[k].None? ensures p.pages[j].None? {
      assert p.Entries(w)[k].None?;
      assert k < i && p.Entries(w)[j].None?;
    }
  }

  /** A pin on a device-coherent folio becomes a plain reference, which the migration takes over. */
  method MigrateCoherent(g: Gup, f: FolioId, fails: bool) returns (ok: bool)
    requires g.Valid() && f in g.w.info
    modifies g
    ensures g.Valid() && g.net == Dropped(g.w, old(g.net), f, 1, PINNED) && ok == !fails
  {
    g.RefAdd(f, 1);
    g.Put(f, 1, PINNED);
    g.RefAdd(f, -1);
    ok := !fails;
  }

  datatype Verdict = Kept | Again | Failed(err: int)

  const EBUSY: int := -16
  const ENOMEM: int := -12

  /** One entry of the loop: its pin is dropped, one way or the other. */
  method MigrateOne(g: Gup, es: seq<Opt<FolioId>>, i: nat, fails: bool, ghost base: Net) returns (ok: bool)
    requires g.Valid() && FoliosIn(g.w, es) && i < |es| && es[i].Some? && Gained(g.w, g.net, base, Pins(es, i), Pin)
    modifies g
    ensures g.Valid() && Gained(g.w, g.net, base, Pins(es, i + 1), Pin)
    ensures ok <==> !(g.w.info[es[i].v].coherent && fails)
  {
    var f := es[i].v;
    GainedDrop(g.w, g.net, base, Pins(es, i), f, 1, PINNED);
    assert Pins(es, i + 1) == Pins(es, i) + Copies(f, 1);
    if g.w.info[f].coherent {
      ok := MigrateCoherent(g, f, fails);
    } else {
      g.Put(f, 1, PINNED);
      ok := true;
    }
  }

  /** With its entry cleared. */
  method MigrateNext(g: Gup, p: Pofs, es: seq<Opt<FolioId>>, i: nat, fails: bool, ghost base: Net) returns (p': Pofs, ok: bool)
    requires g.Valid() && FoliosIn(g.w, es) && i < |es| && es[i].Some? && Left(g.w, p, es, i) && Gained(g.w, g.net, base, Pins(es, i), Pin)
    modifies g
    ensures g.Valid() && Left(g.w, p', es, i + 1) && Gained(g.w, g.net, base, Pins(es, i + 1), Pin)
    ensures ok <==> !(g.w.info[es[i].v].coherent && fails)
  {
    LeftStep(g.w, p, es, i);
    p' := p.Cleared(i);
    ok := MigrateOne(g, es, i, fails, base);
  }

  predicate FailsAt(w: World, e: Opt<FolioId>, fails: nat -> bool, i: nat) {
    e.Some? && e.v in w.info && w.info[e.v].coherent && fails(i)
  }

  /** One of the first n entries is device-coherent and its migration fails. */
  ghost predicate CoherentFails(w: World, es: seq<Opt<FolioId>>, fails: nat -> bool, n: nat)
    requires FoliosIn(w, es) && n <= |es|
  {
    exists i :: 0 <= i < n && FailsAt(w, es[i], fails, i)
  }

  lemma FailsNext(w: World, es: seq<Opt<FolioId>>, fails: nat -> bool, n: nat)
    requires FoliosIn(w, es) && n < |es| && es[n].Some?
    ensures CoherentFails(w, es, fails, n + 1) <==> CoherentFails(w, es, fails, n) || (w.info[es[n].v].coherent && fails(n))
  {
    if w.info[es[n].v].coherent && fails(n) {
      assert FailsAt(w, es[n], fails, n);
    }
  }

  /** What comes of a migration. */
  ghost function Migration(w: World, es: seq<Opt<FolioId>>, fails: nat -> bool, listFails: bool): Verdict
    requires FoliosIn(w, es)
  {
    if CoherentFails(w, es, fails, |es|) then Failed(EBUSY) else if listFails then Failed(ENOMEM) else Again
  }

  /** `migrate_longterm_unpinnable_folios`: every pin is dropped exactly once, whatever fails. */
  method Migrate(g: Gup, pofs: Pofs, coherentFails: nat -> bool, listFails: bool) returns (r: Verdict)
    requires g.Valid() && pofs.In(g.w) && Full(g.w, pofs)
    modifies g
    ensures g.Valid() && FoliosIn(g.w, pofs.Entries(g.w)) && r == Migration(g.w, pofs.Entries(g.w), coherentFails, listFails)
    ensures Gained(g.w, g.net, old(g.net), AllPins(pofs.Entries(g.w)), Pin)
  {
    ghost var net0 := g.net;
    var es := pofs.Entries(g.w);
    EntriesIn(g.w, pofs);
    var ok, p, i := MigrateLoop(g, pofs, es, coherentFails, net0);
    if !ok || listFails {
      UnpinLeft(g, p, es, i, net0);
    }
    r := if !ok then Failed(EBUSY) else if listFails then Failed(ENOMEM) else Again;
  }

  /** Its loop: up to the first device-coherent folio whose migration fails. */
  method MigrateLoop(g: Gup, pofs: Pofs, es: seq<Opt<FolioId>>, coherentFails: nat -> bool, ghost net0: Net) returns (ok: bool, p: Pofs, i: nat)
    requires g.Valid() && g.net == net0 && FoliosIn(g.w, es) && Left(g.w, pofs, es, 0) && forall k :: 0 <= k < |es| ==> es[k].Some?
    modifies g
    ensures g.Valid() && Left(g.w, p, es, i) && Gained(g.w, g.net, net0, Pins(es, i), Pin)
    ensures (ok <==> !CoherentFails(g.w, es, coherentFails, |es|)) && (ok ==> i == |es|)
  {
    ok, p, i := true, pofs, 0;
    GainedNone(g.w, g.net, Pin);
    while ok && i < |es|
      invariant g.Valid() && Left(g.w, p, es, i) && Gained(g.w, g.net, net0, Pins(es, i), Pin)
      invariant ok <==> !CoherentFails(g.w, es, coherentFails, i)
    {
      FailsNext(g.w, es, coherentFails, i);
      p, ok := MigrateNext(g, p, es, i, coherentFails(i), net0);
      i := i + 1;
    }
  }

  /** `check_and_migrate_movable_pages_or_folios`. */
  method CheckAndMigrate(g: Gup, pofs: Pofs, coherentFails: nat -> bool, listFails: bool) returns (r: Verdict)
    requires g.Valid() && pofs.In(g.w) && Full(g.w, pofs) && pofs.Len() > 0
    modifies g
    ensures g.Valid() && FoliosIn(g.w, pofs.Entries(g.w))
    ensures r.Kept? || r == Migration(g.w, pofs.Entries(g.w), coherentFails, listFails)
    ensures r.Kept? <==> forall i :: 0 <= i < pofs.Len() ==> g.w.info[pofs.Entries(g.w)[i].v].pinnable
    ensures if r.Kept? then g.net == old(g.net) else Gained(g.w, g.net, old(g.net), AllPins(pofs.Entries(g.w)), Pin)
  {
    EntriesIn(g.w, pofs);
    var collected := Collect(g.w, pofs);
    if collected == 0 {
      return Kept;
    }
    r := Migrate(g, pofs, coherentFails, listFails);
  }
}
