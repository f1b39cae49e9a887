/** The batched unpin loops: each drops the pins of a run of entries of one folio at once, and
    all of them amount to one drop per entry. */
module GupUnpin {
  import opened Common
  import opened GupCounts

  const PINNED := Flags(false, true, false, false, false, false, false)

  /** The folio behind each entry of a page array. */
  function Heads(w: World, pages: seq<Opt<Page>>): (r: seq<Opt<FolioId>>)
    requires PagesIn(w, pages)
    ensures |r| == |pages|
  {
    seq(|pages|, i requires 0 <= i < |pages| => if pages[i].None? then None else Some(w.folio[pages[i].v]))
  }

  ghost predicate PagesIn(w: World, pages: seq<Opt<Page>>) {
    forall i :: 0 <= i < |pages| ==> pages[i].None? || pages[i].v in w.folio
  }

  ghost predicate FoliosIn(w: World, es: seq<Opt<FolioId>>) {
    forall i :: 0 <= i < |es| ==> es[i].None? || es[i].v in w.info
  }

  /** The pins behind those of the first n entries that are not NULL. */
  function Pins(es: seq<Opt<FolioId>>, n: nat): multiset<FolioId>
    requires n <= |es|
  {
    if n == 0 then multiset{}
    else if es[n - 1].None? then Pins(es, n - 1)
    else Pins(es, n - 1) + multiset{es[n - 1].v}
  }

  function AllPins(es: seq<Opt<FolioId>>): multiset<FolioId> { Pins(es, |es|) }

  /** The first n entries released one at a time, each with `unpin_user_page`. */
  function ReleasedEach(w: World, net: Net, es: seq<Opt<FolioId>>, n: nat): (r: Net)
    requires Fits(w, net) && FoliosIn(w, es) && n <= |es|
    ensures Fits(w, r)
  {
    if n == 0 then net
    else
      var r := ReleasedEach(w, net, es, n - 1);
      if es[n - 1].None? then r else Dropped(w, r, es[n - 1].v, 1, PINNED)
  }

  lemma {:induction false} EachIsAll(w: World, net: Net, es: seq<Opt<FolioId>>, n: nat)
    requires Fits(w, net) && FoliosIn(w, es) && n <= |es|
    ensures Gained(w, ReleasedEach(w, net, es, n), net, Pins(es, n), Pin)
  {
    if n == 0 {
      GainedNone(w, net, Pin);
    } else {
      EachIsAll(w, net, es, n - 1);
      if es[n - 1].Some? {
        GainedDrop(w, ReleasedEach(w, net, es, n - 1), net, Pins(es, n - 1), es[n - 1].v, 1, PINNED);
        assert multiset{es[n - 1].v} == Copies(es[n - 1].v, 1);
      }
    }
  }

  /** So a batched release is the same as releasing the entries one at a time. */
  lemma BatchIsEach(w: World, net: Net, net': Net, es: seq<Opt<FolioId>>)
    requires FoliosIn(w, es) && Gained(w, net', net, AllPins(es), Pin)
    ensures net' == ReleasedEach(w, net, es, |es|)
  {
    EachIsAll(w, net, es, |es|);
    GainedBack(w, net', net, ReleasedEach(w, net, es, |es|), AllPins(es), Pin);
  }

  /** Entries i to j - 1 all belong to folio f. */
  ghost predicate RunOf(es: seq<Opt<FolioId>>, i: nat, j: nat, f: FolioId) {
    i <= j <= |es| && forall k :: i <= k < j ==> es[k] == Some(f)
  }

  lemma {:induction false} PinsRun(es: seq<Opt<FolioId>>, i: nat, j: nat, f: FolioId)
    requires RunOf(es, i, j, f)
    ensures Pins(es, j) == Pins(es, i) + Copies(f, j - i)
  {
    if i < j {
      PinsRun(es, i, j - 1, f);
      assert Copies(f, j - i) == Copies(f, j - 1 - i) + multiset{f};
    }
  }

  lemma PinsNull(es: seq<Opt<FolioId>>, i: nat)
    requires i < |es| && es[i].None?
    ensures Pins(es, i + 1) == Pins(es, i)
  {
  }

  /** After the first entry that is not NULL there is none that is. */
  ghost predicate NullPrefix(es: seq<Opt<Page>>) {
    forall j, k :: 0 <= j < k < |es| && es[k].None? ==> es[j].None?
  }

  /** `gup_folio_next`; it fails when it asks for the folio of a NULL page. */
  method FolioNext(w: World, list: seq<Opt<Page>>, i: nat) returns (ok: bool, f: FolioId, nr: nat)
    requires PagesIn(w, list) && i < |list| && list[i].Some?
    ensures ok ==> nr > 0 && RunOf(Heads(w, list), i, i + nr, f) && (i + nr < |list| ==> list[i + nr].Some?)
    ensures ok ==> forall k :: i <= k < i + nr ==> list[k].Some?
    ensures !ok ==> exists k :: i < k < |list| && list[k].None?
  {
    var es := Heads(w, list);
    f := es[i].v;
    var n := i + 1;
    while n < |list| && list[n].Some? && es[n] == Some(f)
      invariant i < n <= |list| && RunOf(es, i, n, f)
      invariant forall k :: i <= k < n ==> list[k].Some?
    {
      n := n + 1;
    }
    ok := n == |list| || list[n].Some?;
    nr := n - i;
  }

  /** Drops the pins of one run. */
  method DropRun(g: Gup, ghost es: seq<Opt<FolioId>>, i: nat, j: nat, f: FolioId, ghost base: Net)
    requires g.Valid() && FoliosIn(g.w, es) && i < j && RunOf(es, i, j, f)
    requires Gained(g.w, g.net, base, Pins(es, i), Pin)
    modifies g
    ensures g.Valid() && Gained(g.w, g.net, base, Pins(es, j), Pin)
  {
    assert es[i] == Some(f);
    PinsRun(es, i, j, f);
    GainedDrop(g.w, g.net, base, Pins(es, i), f, j - i, PINNED);
    g.Put(f, j - i, PINNED);
  }

  lemma HeadsIn(w: World, pages: seq<Opt<Page>>)
    requires w.Valid() && PagesIn(w, pages)
    ensures FoliosIn(w, Heads(w, pages))
  {
  }

  lemma PrefixSome(es: seq<Opt<Page>>, i: nat, j: nat)
    requires i <= j <= |es| && NullPrefix(es[..i]) && forall k :: i <= k < j ==> es[k].Some?
    ensures NullPrefix(es[..j])
  {
    forall a, b | 0 <= a < b < j && es[..j][b].None? ensures es[..j][a].None? {
      assert es[..i][b].None? && es[..i][a] == es[..j][a];
    }
  }

  lemma PrefixNone(es: seq<Opt<Page>>, i: nat)
    requires i < |es| && NullPrefix(es[..i]) && es[i].None? && (i > 0 ==> es[i - 1].None?)
    ensures NullPrefix(es[..i + 1])
  {
    var r := es[..i + 1];
    forall a, b | 0 <= a < b < |r| && r[b].None? ensures r[a].None? {
      assert es[..i][a] == r[a];
      if a < i - 1 {
        assert es[..i][i - 1].None?;
      }
    }
  }

  /** The entries before i have been gone through, and none of them was a NULL after a page. */
  ghost predicate Scanned(pages: seq<Opt<Page>>, i: nat) {
    i <= |pages| && NullPrefix(pages[..i]) && (0 < i < |pages| ==> pages[i - 1].None? || pages[i].Some?)
  }

  /** Which entry comes next, and what is to be dropped before it. */
  method ScanNext(w: World, pages: seq<Opt<Page>>, i: nat) returns (ok: bool, run: Opt<FolioId>, j: nat)
    requires PagesIn(w, pages) && i < |pages| && Scanned(pages, i)
    ensures !ok ==> !NullPrefix(pages)
    ensures ok ==> i < j && Scanned(pages, j)
    ensures ok ==> if run.Some? then RunOf(Heads(w, pages), i, j, run.v) else j == i + 1 && Heads(w, pages)[i].None?
  {
    if pages[i].None? {
      PrefixNone(pages, i);
      return true, None, i + 1;
    }
    var found, f, nr := FolioNext(w, pages, i);
    if !found {
      return false, None, i;
    }
    PrefixSome(pages, i, i + nr);
    return true, Some(f), i + nr;
  }

  /** `unpin_user_pages` releases each entry that is not NULL once; it keeps clear of NULL pages
      exactly when the NULL entries come first. */
  method UnpinUserPages(g: Gup, pages: seq<Opt<Page>>) returns (ok: bool)
    requires g.Valid() && PagesIn(g.w, pages)
    modifies g
    ensures g.Valid()
    ensures ok <==> NullPrefix(pages)
    ensures ok ==> Gained(g.w, g.net, old(g.net), AllPins(Heads(g.w, pages)), Pin)
  {
    var es := Heads(g.w, pages);
    HeadsIn(g.w, pages);
    GainedNone(g.w, g.net, Pin);
    var i: nat := 0;
    while i < |pages|
      invariant Scanned(pages, i) && g.Valid()
      invariant Gained(g.w, g.net, old(g.net), Pins(es, i), Pin)
    {
      var found, run, j := ScanNext(g.w, pages, i);
      if !found {
        return false;
      }
      if run.Some? {
        DropRun(g, es, i, j, run.v, old(g.net));
      } else {
        PinsNull(es, i);
      }
      i := j;
    }
    assert pages[..i] == pages;
    ok := true;
  }

  /** `unpin_folios`: NULL entries may stand anywhere. */
  method UnpinFolios(g: Gup, folios: seq<Opt<FolioId>>)
    requires g.Valid() && FoliosIn(g.w, folios)
    modifies g
    ensures g.Valid() && Gained(g.w, g.net, old(g.net), AllPins(folios), Pin)
  {
    GainedNone(g.w, g.net, Pin);
    var i: nat := 0;
    while i < |folios|
      invariant i <= |folios| && g.Valid()
      invariant Gained(g.w, g.net, old(g.net), Pins(folios, i), Pin)
    {
      var j := i + 1;
      while j < |folios| && folios[i] == folios[j]
        invariant i < j <= |folios| && forall k :: i <= k < j ==> folios[k] == folios[i]
      {
        j := j + 1;
      }
      if folios[i].Some? {
        DropRun(g, folios, i, j, folios[i].v, old(g.net));
      } else {
        PinsNulls(folios, i, j);
      }
      i := j;
    }
  }

  lemma {:induction false} PinsNulls(es: seq<Opt<FolioId>>, i: nat, j: nat)
    requires i <= j <= |es| && forall k :: i <= k < j ==> es[k].None?
    ensures Pins(es, j) == Pins(es, i)
  {
    if i < j {
      PinsNulls(es, i, j - 1);
      PinsNull(es, j - 1);
    }
  }

  // Arrays without NULL entries

  ghost predicate AllIn(w: World, pages: seq<Page>) {
    forall i :: 0 <= i < |pages| ==> pages[i] in w.folio
  }

  function Somes<T>(s: seq<T>): (r: seq<Opt<T>>)
    ensures |r| == |s|
  {
    seq(|s|, i requires 0 <= i < |s| => Some(s[i]))
  }

  ghost predicate NoNulls(pages: seq<Opt<Page>>) {
    forall i :: 0 <= i < |pages| ==> pages[i].Some?
  }

  /** `gup_fast_unpin_user_pages`. */
  method FastUnpin(g: Gup, pages: seq<Opt<Page>>)
    requires g.Valid() && PagesIn(g.w, pages) && NoNulls(pages)
    modifies g
    ensures g.Valid() && Gained(g.w, g.net, old(g.net), AllPins(Heads(g.w, pages)), Pin)
  {
    var es := Heads(g.w, pages);
    HeadsIn(g.w, pages);
    GainedNone(g.w, g.net, Pin);
    var i: nat := 0;
    while i < |pages|
      invariant i <= |pages| && g.Valid()
      invariant Gained(g.w, g.net, old(g.net), Pins(es, i), Pin)
    {
      var ok, f, nr := FolioNext(g.w, pages, i);
      assert ok;
      DropRun(g, es, i, i + nr, f, old(g.net));
      i := i + nr;
    }
  }

  /** What is dirty after the first n entries, if they are to be marked. */
  ghost function Dirtied(dirty: set<FolioId>, es: seq<Opt<FolioId>>, n: nat, makeDirty: bool): set<FolioId>
    requires n <= |es|
  {
    if makeDirty then dirty + Marked(es, n) else dirty
  }

  /** One run of it: mark the folio dirty unless it is, then drop the pins. */
  method DirtyRun(g: Gup, ghost es: seq<Opt<FolioId>>, i: nat, j: nat, f: FolioId, makeDirty: bool, dirty: set<FolioId>, ghost base: Net, ghost was: set<FolioId>)
    returns (dirty': set<FolioId>)
    requires g.Valid() && FoliosIn(g.w, es) && i < j && RunOf(es, i, j, f)
    requires Gained(g.w, g.net, base, Pins(es, i), Pin) && dirty == Dirtied(was, es, i, makeDirty)
    modifies g
    ensures g.Valid() && Gained(g.w, g.net, base, Pins(es, j), Pin) && dirty' == Dirtied(was, es, j, makeDirty)
  {
    MarkedRun(es, i, j, f);
    dirty' := if makeDirty && f !in dirty then dirty + {f} else dirty;
    DropRun(g, es, i, j, f, base);
  }

  /** `unpin_user_pages_dirty_lock`; `dirty'` are the folios that are dirty afterwards.  It keeps
      clear of NULL pages exactly when there are none, or they come first and nothing is marked. */
  method UnpinDirty(g: Gup, pages: seq<Opt<Page>>, makeDirty: bool, dirty: set<FolioId>) returns (ok: bool, dirty': set<FolioId>)
    requires g.Valid() && PagesIn(g.w, pages)
    modifies g
    ensures g.Valid()
    ensures ok <==> if makeDirty then NoNulls(pages) else NullPrefix(pages)
    ensures ok ==> Gained(g.w, g.net, old(g.net), AllPins(Heads(g.w, pages)), Pin)
    ensures ok ==> dirty' == Dirtied(dirty, Heads(g.w, pages), |pages|, makeDirty)
  {
    dirty' := dirty;
    if !makeDirty {
      ok := UnpinUserPages(g, pages);
      return;
    }
    var es := Heads(g.w, pages);
    HeadsIn(g.w, pages);
    GainedNone(g.w, g.net, Pin);
    var i: nat := 0;
    while i < |pages|
      invariant i <= |pages| && g.Valid() && forall k :: 0 <= k < i ==> pages[k].Some?
      invariant Gained(g.w, g.net, old(g.net), Pins(es, i), Pin) && dirty' == Dirtied(dirty, es, i, true)
    {
      if pages[i].None? {
        return false, dirty';
      }
      var found, f, nr := FolioNext(g.w, pages, i);
      if !found {
        return false, dirty';
      }
      dirty' := DirtyRun(g, es, i, i + nr, f, true, dirty', old(g.net), dirty);
      i := i + nr;
    }
    ok := true;
  }

  /** The folios behind the first n entries. */
  function Marked(es: seq<Opt<FolioId>>, n: nat): set<FolioId>
    requires n <= |es|
  {
    if n == 0 then {} else Marked(es, n - 1) + if es[n - 1].None? then {} else {es[n - 1].v}
  }

  lemma {:induction false} MarkedRun(es: seq<Opt<FolioId>>, i: nat, j: nat, f: FolioId)
    requires i < j && RunOf(es, i, j, f)
    ensures Marked(es, j) == Marked(es, i) + {f}
  {
    if i < j - 1 {
      MarkedRun(es, i, j - 1, f);
    }
  }

  function Stretch(page: Page, n: nat): (r: seq<Page>)
    ensures |r| == n
  {
    seq(n, i requires 0 <= i < n => page + i)
  }

  ghost predicate RangeIn(w: World, page: Page, n: nat) {
    forall p :: page <= p < page + n ==> p in w.folio
  }

  /** The folio behind each page of a range. */
  function RangeHeads(w: World, page: Page, n: nat): (r: seq<Opt<FolioId>>)
    requires RangeIn(w, page, n)
    ensures |r| == n
  {
    seq(n, i requires 0 <= i < n => Some(w.folio[page + i]))
  }

  /** `gup_folio_range_next`. */
  method RangeNext(w: World, page: Page, n: nat, i: nat) returns (f: FolioId, nr: nat)
    requires w.Valid() && RangeIn(w, page, n) && i < n
    ensures nr > 0 && i + nr <= n && RunOf(RangeHeads(w, page, n), i, i + nr, f)
  {
    f := w.folio[page + i];
    nr := 1;
    if w.info[f].Large() {
      var left := w.info[f].nr - (page + i - w.info[f].start);
      nr := if n - i < left then n - i else left;
    }
    ghost var es := RangeHeads(w, page, n);
    forall k | i <= k < i + nr ensures es[k] == Some(f) {
      assert page + k in w.folio && w.info[f].Covers(page + k);
    }
  }

  /** `unpin_user_page_range_dirty_lock`: physically consecutive pages. */
  method UnpinRange(g: Gup, page: Page, n: nat, makeDirty: bool, dirty: set<FolioId>) returns (dirty': set<FolioId>)
    requires g.Valid() && RangeIn(g.w, page, n)
    modifies g
    ensures g.Valid() && Gained(g.w, g.net, old(g.net), AllPins(RangeHeads(g.w, page, n)), Pin)
    ensures dirty' == Dirtied(dirty, RangeHeads(g.w, page, n), n, makeDirty)
  {
    dirty' := dirty;
    ghost var net0, es := g.net, RangeHeads(g.w, page, n);
    GainedNone(g.w, net0, Pin);
    var i: nat := 0;
    while i < n
      invariant i <= n && g.Valid()
      invariant Gained(g.w, g.net, net0, Pins(es, i), Pin) && dirty' == Dirtied(dirty, es, i, makeDirty)
    {
      dirty', i := RangeTurn(g, page, n, i, makeDirty, dirty', net0, dirty, es);
    }
  }

  /** One turn of its loop. */
  method RangeTurn(g: Gup, page: Page, n: nat, i: nat, makeDirty: bool, dirty: set<FolioId>, ghost base: Net, ghost was: set<FolioId>, ghost es: seq<Opt<FolioId>>)
    returns (dirty': set<FolioId>, j: nat)
    requires g.Valid() && RangeIn(g.w, page, n) && i < n && es == RangeHeads(g.w, page, n)
    requires Gained(g.w, g.net, base, Pins(es, i), Pin) && dirty == Dirtied(was, es, i, makeDirty)
    modifies g
    ensures g.Valid() && i < j <= n && Gained(g.w, g.net, base, Pins(es, j), Pin) && dirty' == Dirtied(was, es, j, makeDirty)
  {
    RangeFolios(g.w, page, n);
    var f, nr := RangeNext(g.w, page, n, i);
    j := i + nr;
    dirty' := DirtyRun(g, es, i, j, f, makeDirty, dirty, base, was);
  }

  lemma RangeFolios(w: World, page: Page, n: nat)
    requires w.Valid() && RangeIn(w, page, n)
    ensures FoliosIn(w, RangeHeads(w, page, n))
  {
    var es := RangeHeads(w, page, n);
    forall i | 0 <= i < n ensures es[i].v in w.info {
      assert page + i in w.folio;
    }
  }
}
