/**
  Resident pages over an inner store, as values: what device they show, and why loading, dropping, changing and
  flushing a page show the right one.
*/
module PageMap {
  import opened Store
  import opened Device

  /** A resident page: always a whole page of bytes, zero-padded past the end of the device. */
  datatype Page = Page(data: seq<Byte>, dirty: bool, stamp: nat)

  type Pages = map<nat, Page>

  /** How much of page `p` lies on a device of `n` bytes. */
  function PageLen(n: nat, ps: nat, p: nat): (len: nat)
    ensures len <= ps && (len > 0 ==> p * ps + len <= n) && (len == 0 && ps > 0 ==> n <= p * ps)
    ensures 0 < len < ps ==> p * ps + len == n
  {
    if n <= p * ps then 0 else if n - p * ps < ps then n - p * ps else ps
  }

  /** Every resident page is whole and starts on the device. */
  ghost predicate Shaped(n: nat, ps: nat, pages: Pages) {
    forall p | p in pages :: |pages[p].data| == ps && PageLen(n, ps, p) > 0
  }

  /** Page `p`, if clean, holds what the inner store holds. */
  ghost predicate InSync(inner: seq<Byte>, ps: nat, pages: Pages, p: nat) {
    p in pages && !pages[p].dirty && PageLen(|inner|, ps, p) > 0 && |pages[p].data| == ps ==>
      pages[p].data[..PageLen(|inner|, ps, p)] == inner[p * ps..p * ps + PageLen(|inner|, ps, p)]
  }

  ghost predicate CleanIsInner(inner: seq<Byte>, ps: nat, pages: Pages) {
    forall p | p in pages :: InSync(inner, ps, pages, p)
  }

  /** The byte the layer shows at `k`. */
  ghost function At(inner: seq<Byte>, ps: nat, pages: Pages, k: nat): Byte
    requires ps > 0 && Shaped(|inner|, ps, pages) && k < |inner|
  {
    if k / ps in pages then pages[k / ps].data[k % ps] else inner[k]
  }

  /** The device the layer shows. */
  ghost function Shown(inner: seq<Byte>, ps: nat, pages: Pages): (v: seq<Byte>)
    requires ps > 0 && Shaped(|inner|, ps, pages)
    ensures |v| == |inner|
    ensures forall k | 0 <= k < |v| :: v[k] == At(inner, ps, pages, k)
  {
    seq(|inner|, k requires 0 <= k < |inner| => At(inner, ps, pages, k))
  }

  /** No page was changed after `counter`. */
  ghost predicate Stamped(pages: Pages, counter: nat) { forall p | p in pages :: pages[p].stamp <= counter }

  lemma StampedDrop(pages: Pages, counter: nat, p: nat)
    requires Stamped(pages, counter)
    ensures Stamped(pages - {p}, counter)
  {
  }

  lemma StampedSet(pages: Pages, counter: nat, p: nat, page: Page, counter': nat)
    requires Stamped(pages, counter) && counter <= counter' && page.stamp <= counter'
    ensures Stamped(pages[p := page], counter')
  {
  }

  lemma StampedMark(pages: Pages, counter: nat, p: nat)
    requires Stamped(pages, counter) && p in pages
    ensures Stamped(pages[p := pages[p].(dirty := false)], counter)
  {
  }

  function Dirty(pages: Pages): set<nat> { set p | p in pages && pages[p].dirty }

  function Clean(pages: Pages): set<nat> { set p | p in pages && !pages[p].dirty }

  /** Offset `k` is in page `p` exactly when it lies in the page's range. */
  lemma PageRange(k: nat, p: nat, ps: nat)
    requires ps > 0
    ensures k / ps == p <==> p * ps <= k < p * ps + ps
    ensures k / ps == p ==> k % ps == k - p * ps
  {
    assert k == (k / ps) * ps + k % ps;
    if k / ps < p { assert (k / ps + 1) * ps <= p * ps; }
    if k / ps > p { assert (p + 1) * ps <= (k / ps) * ps; }
  }

  /** What a load puts in memory. */
  function Loaded(inner: seq<Byte>, ps: nat, p: nat, stamp: nat): (page: Page)
    requires PageLen(|inner|, ps, p) > 0
    ensures |page.data| == ps && !page.dirty
  {
    var len := PageLen(|inner|, ps, p);
    Page(inner[p * ps..p * ps + len] + Zeroed(ps - len), false, stamp)
  }

  lemma LoadShows(inner: seq<Byte>, ps: nat, pages: Pages, p: nat, stamp: nat)
    requires ps > 0 && Shaped(|inner|, ps, pages) && PageLen(|inner|, ps, p) > 0 && p !in pages
    requires CleanIsInner(inner, ps, pages)
    ensures Shaped(|inner|, ps, pages[p := Loaded(inner, ps, p, stamp)])
    ensures Shown(inner, ps, pages[p := Loaded(inner, ps, p, stamp)]) == Shown(inner, ps, pages)
    ensures CleanIsInner(inner, ps, pages[p := Loaded(inner, ps, p, stamp)])
  {
    var t := pages[p := Loaded(inner, ps, p, stamp)];
    forall k | 0 <= k < |inner| ensures At(inner, ps, t, k) == At(inner, ps, pages, k) { PageRange(k, p, ps); }
    forall q | q in t ensures InSync(inner, ps, t, q) {
      if q != p { assert InSync(inner, ps, pages, q); }
    }
  }

  /** Dropping a clean page shows the inner bytes, which are the same. */
  lemma DropShows(inner: seq<Byte>, ps: nat, pages: Pages, p: nat)
    requires ps > 0 && Shaped(|inner|, ps, pages) && p in pages && !pages[p].dirty
    requires CleanIsInner(inner, ps, pages)
    ensures Shaped(|inner|, ps, pages - {p}) && CleanIsInner(inner, ps, pages - {p})
    ensures Shown(inner, ps, pages - {p}) == Shown(inner, ps, pages)
  {
    var t := pages - {p};
    assert InSync(inner, ps, pages, p);
    forall k | 0 <= k < |inner| ensures At(inner, ps, t, k) == At(inner, ps, pages, k) {
      PageRange(k, p, ps);
      if k / ps == p {
        assert pages[p].data[k - p * ps] == pages[p].data[..PageLen(|inner|, ps, p)][k - p * ps];
      }
    }
    forall q | q in t ensures InSync(inner, ps, t, q) { assert InSync(inner, ps, pages, q); }
  }

  /** `pages` with `chunk` put at `o` in page `p`, which is now dirty. */
  function Put(pages: Pages, p: nat, o: nat, chunk: seq<Byte>, stamp: nat): Pages
    requires p in pages && o + |chunk| <= |pages[p].data|
  {
    pages[p := Page(Splice(pages[p].data, o, chunk), true, stamp)]
  }

  lemma PutInSync(inner: seq<Byte>, ps: nat, pages: Pages, p: nat, o: nat, chunk: seq<Byte>, stamp: nat)
    requires Shaped(|inner|, ps, pages) && p in pages && o + |chunk| <= ps && CleanIsInner(inner, ps, pages)
    ensures Shaped(|inner|, ps, Put(pages, p, o, chunk, stamp))
    ensures CleanIsInner(inner, ps, Put(pages, p, o, chunk, stamp))
  {
  }

  lemma PutAt(inner: seq<Byte>, ps: nat, pages: Pages, p: nat, o: nat, chunk: seq<Byte>, stamp: nat, k: nat)
    requires ps > 0 && Shaped(|inner|, ps, pages) && p in pages && o + |chunk| <= ps && k < |inner|
    requires Shaped(|inner|, ps, Put(pages, p, o, chunk, stamp))
    ensures At(inner, ps, Put(pages, p, o, chunk, stamp), k) ==
            if p * ps + o <= k < p * ps + o + |chunk| then chunk[k - (p * ps + o)] else At(inner, ps, pages, k)
  {
    hide PageLen;
    PageRange(k, p, ps);
  }

  /** Changing part of a resident page writes that part of the device. */
  lemma PutShows(inner: seq<Byte>, ps: nat, pages: Pages, p: nat, o: nat, chunk: seq<Byte>, stamp: nat)
    requires ps > 0 && Shaped(|inner|, ps, pages) && p in pages
    requires o + |chunk| <= PageLen(|inner|, ps, p)
    requires Shaped(|inner|, ps, Put(pages, p, o, chunk, stamp))
    ensures p * ps + o + |chunk| <= |inner|
    ensures Shown(inner, ps, Put(pages, p, o, chunk, stamp)) == Splice(Shown(inner, ps, pages), p * ps + o, chunk)
  {
    hide PageLen, At;
    var v := Splice(Shown(inner, ps, pages), p * ps + o, chunk);
    var u := Shown(inner, ps, Put(pages, p, o, chunk, stamp));
    forall k | 0 <= k < |inner| ensures u[k] == v[k] { PutAt(inner, ps, pages, p, o, chunk, stamp, k); }
  }

  /** What a flush of page `p` writes into the inner store. */
  function Flushed(inner: seq<Byte>, ps: nat, pages: Pages, p: nat): (r: seq<Byte>)
    requires p in pages && |pages[p].data| == ps && PageLen(|inner|, ps, p) > 0
    ensures |r| == |inner|
  {
    Splice(inner, p * ps, pages[p].data[..PageLen(|inner|, ps, p)])
  }

  /** A flush write, landed or marked clean or not, changes no byte shown. */
  lemma FlushShows(inner: seq<Byte>, ps: nat, pages: Pages, p: nat)
    requires ps > 0 && Shaped(|inner|, ps, pages) && p in pages
    ensures Shown(Flushed(inner, ps, pages, p), ps, pages) == Shown(inner, ps, pages)
  {
    var f := Flushed(inner, ps, pages, p);
    forall k | 0 <= k < |inner| ensures At(f, ps, pages, k) == At(inner, ps, pages, k) { PageRange(k, p, ps); }
  }

  /** A flush of page `p` leaves the inner bytes of every other page alone. */
  lemma FlushApart(inner: seq<Byte>, ps: nat, pages: Pages, p: nat, q: nat)
    requires ps > 0 && Shaped(|inner|, ps, pages) && p in pages && q in pages && q != p
    ensures var len := PageLen(|inner|, ps, q);
            Flushed(inner, ps, pages, p)[q * ps..q * ps + len] == inner[q * ps..q * ps + len]
  {
    hide PageLen;
    var f := Flushed(inner, ps, pages, p);
    var len := PageLen(|inner|, ps, q);
    forall k: nat | q * ps <= k < q * ps + len ensures f[k] == inner[k] {
      PageRange(k, q, ps);
      PageRange(k, p, ps);
    }
  }

  lemma FlushInSync(inner: seq<Byte>, ps: nat, pages: Pages, p: nat)
    requires ps > 0 && Shaped(|inner|, ps, pages) && p in pages && CleanIsInner(inner, ps, pages)
    ensures CleanIsInner(Flushed(inner, ps, pages, p), ps, pages[p := pages[p].(dirty := false)])
    ensures pages[p].dirty ==> CleanIsInner(Flushed(inner, ps, pages, p), ps, pages)
  {
    hide PageLen, InSync, Flushed;
    var f := Flushed(inner, ps, pages, p);
    var t := pages[p := pages[p].(dirty := false)];
    if pages[p].dirty { DirtyInSync(f, ps, pages, p); }
    forall q | q in pages && q != p ensures InSync(f, ps, t, q) && InSync(f, ps, pages, q) {
      assert InSync(inner, ps, pages, q);
      OtherInSync(inner, ps, pages, p, q);
    }
    OwnInSync(inner, ps, pages, p);
  }

  lemma OtherInSync(inner: seq<Byte>, ps: nat, pages: Pages, p: nat, q: nat)
    requires ps > 0 && Shaped(|inner|, ps, pages) && p in pages && q in pages && q != p && InSync(inner, ps, pages, q)
    ensures InSync(Flushed(inner, ps, pages, p), ps, pages[p := pages[p].(dirty := false)], q)
    ensures InSync(Flushed(inner, ps, pages, p), ps, pages, q)
  {
    hide PageLen, Flushed;
    FlushApart(inner, ps, pages, p, q);
  }

  lemma DirtyInSync(inner: seq<Byte>, ps: nat, pages: Pages, p: nat)
    requires p in pages && pages[p].dirty
    ensures InSync(inner, ps, pages, p)
  {
  }

  lemma OwnInSync(inner: seq<Byte>, ps: nat, pages: Pages, p: nat)
    requires ps > 0 && Shaped(|inner|, ps, pages) && p in pages
    ensures InSync(Flushed(inner, ps, pages, p), ps, pages[p := pages[p].(dirty := false)], p)
  {
    hide PageLen;
    var f := Flushed(inner, ps, pages, p);
    assert f[p * ps..p * ps + PageLen(|inner|, ps, p)] == pages[p].data[..PageLen(|inner|, ps, p)];
  }

  /** Marking a page clean shows the same bytes. */
  lemma MarkShows(inner: seq<Byte>, ps: nat, pages: Pages, p: nat)
    requires ps > 0 && Shaped(|inner|, ps, pages) && p in pages
    ensures Shaped(|inner|, ps, pages[p := pages[p].(dirty := false)])
    ensures Shown(inner, ps, pages[p := pages[p].(dirty := false)]) == Shown(inner, ps, pages)
  {
  }

  /** A byte of a clean page is the inner store's. */
  lemma CleanByte(inner: seq<Byte>, ps: nat, pages: Pages, k: nat)
    requires ps > 0 && Shaped(|inner|, ps, pages) && CleanIsInner(inner, ps, pages) && k < |inner|
    requires k / ps in pages && !pages[k / ps].dirty
    ensures pages[k / ps].data[k % ps] == inner[k]
  {
    var p := k / ps;
    PageRange(k, p, ps);
    assert InSync(inner, ps, pages, p);
    var len := PageLen(|inner|, ps, p);
    assert pages[p].data[..len][k - p * ps] == inner[p * ps..p * ps + len][k - p * ps];
  }

  /** With no dirty page left, the inner store is the device. */
  lemma AllCleanShowsInner(inner: seq<Byte>, ps: nat, pages: Pages)
    requires ps > 0 && Shaped(|inner|, ps, pages) && CleanIsInner(inner, ps, pages) && Dirty(pages) == {}
    ensures Shown(inner, ps, pages) == inner
  {
    hide Shaped, CleanIsInner;
    forall k | 0 <= k < |inner| ensures At(inner, ps, pages, k) == inner[k] {
      if k / ps in pages {
        assert k / ps !in Dirty(pages);
        CleanByte(inner, ps, pages, k);
      }
    }
  }

  /** A chunk of a resident page is that part of the device. */
  lemma ChunkShows(inner: seq<Byte>, ps: nat, pages: Pages, p: nat, o: nat, len: nat)
    requires ps > 0 && Shaped(|inner|, ps, pages) && p in pages && o + len <= PageLen(|inner|, ps, p)
    ensures p * ps + o + len <= |inner| && o + len <= |pages[p].data|
    ensures pages[p].data[o..o + len] == Shown(inner, ps, pages)[p * ps + o..p * ps + o + len]
  {
    hide PageLen, At;
    var v := Shown(inner, ps, pages);
    var c := pages[p].data[o..o + len];
    var d := v[p * ps + o..p * ps + o + len];
    forall i | 0 <= i < len ensures c[i] == d[i] { ByteShows(inner, ps, pages, p, o + i); }
  }

  lemma ByteShows(inner: seq<Byte>, ps: nat, pages: Pages, p: nat, i: nat)
    requires ps > 0 && Shaped(|inner|, ps, pages) && p in pages && i < ps && p * ps + i < |inner|
    ensures At(inner, ps, pages, p * ps + i) == pages[p].data[i]
  {
    PageRange(p * ps + i, p, ps);
  }

  /** The page an offset is in. */
  function PageAt(at: nat, ps: nat): nat
    requires ps > 0
  {
    at / ps
  }

  /** Page `q` holds some of the `n` bytes from `offset`. */
  predicate Touches(q: nat, ps: nat, offset: nat, n: nat) { n > 0 && q * ps < offset + n && offset < q * ps + ps }

  /** The `n` bytes from `at` stay within one page. */
  predicate OnePage(at: nat, n: nat, ps: nat) { ps > 0 && at % ps + n <= ps }

  /** The next chunk of a request with `left` bytes to go at `at`: up to the end of the page. */
  function ChunkSize(at: nat, left: nat, ps: nat): (n: nat)
    requires ps > 0 && left > 0
    ensures 0 < n <= left && OnePage(at, n, ps)
    ensures n == left || !OnePage(at, n + 1, ps)
  {
    var o := at % ps;
    if ps - o < left then ps - o else left
  }

  /** A chunk that stays within its page and the device stays within the page's part of the device. */
  lemma ChunkFits(at: nat, n: nat, size: nat, ps: nat)
    requires n > 0 && at + n <= size && OnePage(at, n, ps)
    ensures at == PageAt(at, ps) * ps + at % ps
    ensures at % ps + n <= PageLen(size, ps, PageAt(at, ps))
  {
  }

  /** A chunk starts a page, unless it is the first of its request. */
  predicate AtEdge(offset: nat, pos: nat, ps: nat)
    requires ps > 0
  {
    pos == 0 || (offset + pos) % ps == 0
  }

  lemma FirstEdge(offset: nat, ps: nat)
    requires ps > 0
    ensures AtEdge(offset, 0, ps)
  {
  }

  /** A chunk that is not the last of its request ends its page. */
  lemma ChunkEnds(offset: nat, pos: nat, n: nat, ps: nat)
    requires OnePage(offset + pos, n, ps) && !OnePage(offset + pos, n + 1, ps)
    ensures AtEdge(offset, pos + n, ps)
  {
    var at := offset + pos;
    assert at == (at / ps) * ps + at % ps && at + n == (at / ps + 1) * ps;
    PageRange(at + n, at / ps + 1, ps);
  }

  /** The next chunk adds exactly its own page to the pages touched. */
  lemma TouchesNext(q: nat, ps: nat, offset: nat, pos: nat, n: nat)
    requires n > 0 && OnePage(offset + pos, n, ps) && AtEdge(offset, pos, ps)
    ensures Touches(q, ps, offset, pos + n) <==> Touches(q, ps, offset, pos) || q == PageAt(offset + pos, ps)
    ensures q == PageAt(offset + pos, ps) ==> !Touches(q, ps, offset, pos)
  {
    var p := PageAt(offset + pos, ps);
    PageRange(offset + pos, p, ps);
    if q < p { Scaled(q + 1, p, ps); } else if q > p { Scaled(p + 1, q, ps); }
    Scaled(q, q, ps);
    Scaled(p, p, ps);
  }

  lemma Scaled(a: nat, b: nat, ps: nat)
    requires a <= b
    ensures a * ps <= b * ps && (a + 1) * ps == a * ps + ps
  {
  }

  /** `after` is `before` and the pages touched. */
  ghost predicate Added(before: set<nat>, after: set<nat>, ps: nat, offset: nat, n: nat) {
    forall q: nat :: q in after <==> q in before || Touches(q, ps, offset, n)
  }

  lemma AddedNext(before: set<nat>, now: set<nat>, ps: nat, offset: nat, pos: nat, n: nat)
    requires ps > 0 && n > 0 && OnePage(offset + pos, n, ps) && AtEdge(offset, pos, ps) && Added(before, now, ps, offset, pos)
    ensures Added(before, now + {PageAt(offset + pos, ps)}, ps, offset, pos + n)
  {
    hide Touches, OnePage, AtEdge, PageAt;
    forall q: nat
      ensures q in now + {PageAt(offset + pos, ps)} <==> q in before || Touches(q, ps, offset, pos + n)
    {
      TouchesNext(q, ps, offset, pos, n);
    }
  }

  /** The pages that hold some of the `n` bytes from `offset`. */
  function AllTouched(ps: nat, offset: nat, n: nat): set<nat> { set q: nat | q < offset + n && Touches(q, ps, offset, n) }

  lemma TouchedAre(ps: nat, offset: nat, n: nat, before: set<nat>, now: set<nat>)
    requires ps > 0
    ensures Added(before, now, ps, offset, n) <==> now == before + AllTouched(ps, offset, n)
  {
    forall q: nat ensures q in AllTouched(ps, offset, n) <==> Touches(q, ps, offset, n) { Scaled(1, ps, q); }
  }

  /** Some pages touched early are pages touched in all. */
  lemma TouchedGrows(ps: nat, offset: nat, pos: nat, n: nat)
    requires pos <= n
    ensures AllTouched(ps, offset, pos) <= AllTouched(ps, offset, n)
  {
  }

  /** Only whether pages are dirty has changed. */
  ghost predicate SameBut(was: Pages, now: Pages) {
    now.Keys == was.Keys && forall q | q in was :: now[q] == was[q].(dirty := now[q].dirty)
  }

  /** Every page that was touched and is resident was stamped after `counter`. */
  ghost predicate Restamped(pages: Pages, ps: nat, offset: nat, n: nat, counter: nat) {
    forall q | q in pages && Touches(q, ps, offset, n) :: pages[q].stamp > counter
  }

  /** One more chunk: its page has a new stamp, the other pages have their old ones. */
  lemma RestampedNext(was: Pages, now: Pages, ps: nat, offset: nat, pos: nat, n: nat, counter: nat)
    requires ps > 0 && n > 0 && OnePage(offset + pos, n, ps) && AtEdge(offset, pos, ps) && Restamped(was, ps, offset, pos, counter)
    requires forall q | q in now && q != PageAt(offset + pos, ps) :: q in was && now[q].stamp == was[q].stamp
    requires PageAt(offset + pos, ps) in now ==> now[PageAt(offset + pos, ps)].stamp > counter
    ensures Restamped(now, ps, offset, pos + n, counter)
  {
    hide Touches, OnePage, AtEdge, PageAt;
    forall q | q in now && Touches(q, ps, offset, pos + n) ensures now[q].stamp > counter {
      TouchesNext(q, ps, offset, pos, n);
    }
  }

  lemma NothingTouched(ps: nat, offset: nat, keys: set<nat>)
    ensures Added(keys, keys, ps, offset, 0) && AllTouched(ps, offset, 0) == {}
  {
  }

  /** The last byte of a chunk is in the page of its first. */
  lemma SamePage(at: nat, n: nat, ps: nat)
    requires n > 0 && OnePage(at, n, ps)
    ensures PageAt(at + n - 1, ps) == PageAt(at, ps)
  {
    PageRange(at, at / ps, ps);
    PageRange(at + n - 1, at / ps, ps);
  }
}
