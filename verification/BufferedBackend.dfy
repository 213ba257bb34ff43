/**
  The write-back memory buffer as one client at a time runs it, in place: the page map, its recency index, the
  dirty limit and the resident limit.

  Every operation is proved to act on the flat device the buffer shows, and to leave the two limits in force.
*/
module BufferedBackend {
  import opened Common
  import opened Store
  import opened Device
  import opened PageMap
  import L = Lru

  /** The order in which dirty pages are flushed: older stamp first, then lower index. */
  predicate Older(pages: Pages, p: nat, q: nat)
    requires p in pages && q in pages
  {
    pages[p].stamp < pages[q].stamp || (pages[p].stamp == pages[q].stamp && p <= q)
  }

  /** `victims` are the `n` oldest pages of `from`. */
  ghost predicate OldestOf(pages: Pages, from: set<nat>, victims: set<nat>, n: nat) {
    && from <= pages.Keys
    && victims <= from
    && |victims| == n
    && (forall v, d | v in victims && d in from - victims :: Older(pages, v, d))
  }

  /** The oldest page of a non-empty set. */
  method Oldest(pages: Pages, from: set<nat>) returns (p: nat)
    requires from != {} && from <= pages.Keys
    ensures p in from && forall q | q in from :: Older(pages, p, q)
  {
    p :| p in from;
    var rest := from - {p};
    while rest != {}
      invariant p in from && rest <= from
      invariant forall q | q in from && q !in rest :: Older(pages, p, q)
      decreases rest
    {
      var q :| q in rest;
      if !Older(pages, p, q) {
        assert forall x | x in from && x !in rest :: Older(pages, p, x) ==> Older(pages, q, x);
        p := q;
      }
      rest := rest - {q};
    }
  }

  function Elems(s: seq<nat>): set<nat> { set v | v in s }

  /** The oldest of the rest joins the victims. */
  lemma OneMoreVictim(pages: Pages, from: set<nat>, victims: set<nat>, n: nat, p: nat)
    requires OldestOf(pages, from, victims, n) && p in from - victims
    requires forall q | q in from - victims :: Older(pages, p, q)
    ensures OldestOf(pages, from, victims + {p}, n + 1)
  {
  }

  /** The oldest `n` pages of `from`, oldest first, as sorting by age and taking `n` gives them. */
  method TakeOldest(pages: Pages, from: set<nat>, n: nat) returns (victims: seq<nat>)
    requires from <= pages.Keys && n <= |from|
    ensures |victims| == n && OldestOf(pages, from, Elems(victims), n)
  {
    hide OldestOf;
    victims := [];
    var rest := from;
    assert OldestOf(pages, from, {}, 0) by { NoVictims(pages, from); }
    assert Elems([]) == {};
    while |victims| < n
      invariant |victims| <= n && OldestOf(pages, from, Elems(victims), |victims|)
      invariant rest == from - Elems(victims) && |rest| == |from| - |victims|
    {
      var p := Oldest(pages, rest);
      OneMoreVictim(pages, from, Elems(victims), |victims|, p);
      assert Elems(victims + [p]) == Elems(victims) + {p};
      victims := victims + [p];
      rest := rest - {p};
    }
  }

  lemma NoVictims(pages: Pages, from: set<nat>)
    requires from <= pages.Keys
    ensures OldestOf(pages, from, {}, 0)
  {
  }

  /** What a write starts from: the device shown, the resident pages, and the stamp counter. */
  datatype Before = Before(view: seq<Byte>, keys: set<nat>, counter: nat)

  class BufferedBackend {
    const inner: Remote
    const pageSize: nat
    const maxDirty: nat
    const maxCached: nat
    const lru: L.Lru
    var pages: Pages
    var stampCounter: nat
    var devSize: nat

    /** What `new` asks of a configuration. */
    static predicate ConfigOk(pageSize: nat, maxDirty: nat, maxCached: nat) {
      && pageSize >= SECTOR && Aligned(pageSize)
      && maxDirty != 0
      && (maxCached != 0 ==> maxCached >= maxDirty)
    }

    /** The recency index lists the resident pages, and as evictable exactly the clean ones. */
    ghost predicate Indexed()
      reads this, lru
    {
      && L.Listed(lru.model) == pages.Keys
      && lru.model.clean == Clean(pages)
    }

    ghost predicate Valid()
      reads this, inner`data, lru
    {
      && ConfigOk(pageSize, maxDirty, maxCached)
      && lru.Valid()
      && Indexed()
      && Shaped(|inner.data|, pageSize, pages)
      && CleanIsInner(inner.data, pageSize, pages)
      && (devSize == 0 || devSize == |inner.data|)
      && Stamped(pages, stampCounter)
    }

    /** The device a client sees. */
    ghost function View(): seq<Byte>
      requires Valid()
      reads this, inner`data, lru
    {
      Shown(inner.data, pageSize, pages)
    }

    lemma ViewLength()
      requires Valid()
      ensures |View()| == |inner.data|
    {
    }

    lemma Limits()
      requires Valid()
      ensures ConfigOk(pageSize, maxDirty, maxCached)
    {
    }

    /** What the configuration gives. */
    lemma PageSizePositive()
      requires Valid()
      ensures pageSize > 0
    {
    }

    /** The two limits. */
    ghost predicate Bounded()
      reads this`pages
    {
      && |Dirty(pages)| <= maxDirty
      && (maxCached != 0 ==> |pages| <= maxCached + 1)
    }

    /** These pages may all be resident. */
    ghost predicate Fits(keys: set<nat>) { maxCached == 0 || |keys| <= maxCached }

    constructor (inner: Remote, pageSize: nat, maxDirty: nat, maxCached: nat)
      requires ConfigOk(pageSize, maxDirty, maxCached)
      ensures Valid() && View() == inner.data && Bounded()
      ensures this.inner == inner && fresh(lru)
    {
      this.inner := inner;
      this.pageSize := pageSize;
      this.maxDirty := maxDirty;
      this.maxCached := maxCached;
      lru := new L.Lru();
      pages := map[];
      stampCounter := 0;
      devSize := 0;
      new;
      AllCleanShowsInner(inner.data, pageSize, pages);
    }

    /** The device size, asked of the inner store the first time. */
    method DevSize() returns (r: Result<nat>)
      requires Valid()
      modifies this`devSize, inner`failures
      ensures Valid() && View() == old(View())
      ensures r.Ok? ==> r.value == |inner.data| == devSize
      ensures old(devSize) != 0 ==> r.Ok?
      ensures inner.failures >= old(inner.failures) && (r.Ok? <==> inner.failures == old(inner.failures))
    {
      if devSize != 0 { return Ok(devSize); }
      var sz := inner.Size();
      if sz.Err? { return Err; }
      if devSize == 0 { devSize := sz.value; }
      r := Ok(devSize);
    }

    /**
      Evict clean pages, oldest first, until the resident limit holds or only dirty pages and `protect` are left.  Nothing
      goes while the limit holds, and no more than it asks for.
    */
    method EnforceCacheLimit(protect: Option<nat>)
      requires Valid()
      modifies this`pages, lru
      ensures Valid() && View() == old(View())
      ensures Dirty(pages) == old(Dirty(pages))
      ensures protect.Some? && protect.value in old(pages) ==> protect.value in pages
      ensures maxCached != 0 && |pages| > maxCached ==> forall p | p in pages :: pages[p].dirty || Some(p) == protect
      ensures Fits(old(pages.Keys)) ==> pages == old(pages) && lru.model == old(lru.model)
      ensures !Fits(old(pages.Keys)) ==> |pages| >= maxCached
      ensures Evicted(old(pages), old(lru.model.order), pages, protect)
      ensures protect.Some? && L.Newest(old(lru.model)) == protect ==> L.Newest(lru.model) == protect
    {
      hide Stamped, L.Listed, Shown, Shaped, CleanIsInner, L.Without, L.FirstClean, L.StampsOk, L.Inverse, Evicted, L.Before,
           L.Newest, L.Suborder;
      var max := maxCached;
      ghost var was, order := pages, lru.model.order;
      EvictedNone(pages, order, protect);
      KeysSize(pages);
      if max == 0 { return; }
      while |pages| > max
        invariant Valid() && View() == old(View())
        invariant Dirty(pages) == old(Dirty(pages))
        invariant protect.Some? && protect.value in old(pages) ==> protect.value in pages
        invariant (pages == was && lru.model == old(lru.model)) || |was| > max
        invariant |was| > max ==> |pages| >= max
        invariant Evicted(was, order, pages, protect) && L.Suborder(lru.model.order, order)
        invariant protect.Some? && L.Newest(old(lru.model)) == protect ==> L.Newest(lru.model) == protect
        decreases |pages|
      {
        ghost var before := lru.model;
        var victim := lru.PopLru(protect);
        if victim.None? { break; }
        assert victim.value in Clean(pages);
        DropShows(inner.data, pageSize, pages, victim.value);
        StampedDrop(pages, stampCounter, victim.value);
        OneEvicted(was, order, pages, before, protect, victim.value);
        L.NewestStays(before, victim.value, true);
        pages := pages - {victim.value};
      }
    }

    /** A loaded page becomes resident, clean and most recently used. */
    method Insert(p: nat, data: seq<Byte>)
      requires Valid() && p !in pages && PageLen(|inner.data|, pageSize, p) > 0
      requires data == inner.data[p * pageSize..p * pageSize + PageLen(|inner.data|, pageSize, p)]
      modifies this`pages, this`stampCounter, lru
      ensures Valid() && View() == old(View()) && stampCounter == old(stampCounter) + 1
      ensures pages == old(pages)[p := Loaded(inner.data, pageSize, p, stampCounter)] && Dirty(pages) == old(Dirty(pages))
    {
      hide Stamped, L.Listed, Shown, Shaped, CleanIsInner, L.Without, L.StampsOk, L.Inverse;
      stampCounter := stampCounter + 1;
      LoadShows(inner.data, pageSize, pages, p, stampCounter);
      StampedSet(pages, stampCounter - 1, p, Loaded(inner.data, pageSize, p, stampCounter), stampCounter);
      pages := pages[p := Page(data + Zeroed(pageSize - |data|), false, stampCounter)];
      lru.Touch(p, true);
      assert Dirty(pages) == old(Dirty(pages));
    }

    /** Make page `p` resident; a load may evict other clean pages. */
    method EnsureResident(p: nat, devSize: nat) returns (r: Result<()>)
      requires Valid() && devSize == |inner.data| && PageLen(devSize, pageSize, p) > 0
      modifies this`pages, this`stampCounter, lru, inner`failures
      ensures Valid() && View() == old(View())
      ensures r.Ok? ==> p in pages
      ensures p in old(pages) ==> r.Ok?
      ensures p in old(pages) || r.Err? ==> pages == old(pages) && stampCounter == old(stampCounter)
      ensures stampCounter >= old(stampCounter) && forall q | q in pages && q != p :: q in old(pages) && pages[q] == old(pages)[q]
      ensures r.Ok? && Fits(old(pages.Keys) + {p}) ==> pages.Keys == old(pages.Keys) + {p}
      ensures inner.failures >= old(inner.failures) && (r.Ok? <==> inner.failures == old(inner.failures))
      ensures Dirty(pages) == old(Dirty(pages))
      ensures old(Bounded()) ==> Bounded()
    {
      hide Valid, View, PageLen, Dirty, L.Before, L.Newest, Loaded;
      Limits();
      if p in pages { assert pages.Keys + {p} == pages.Keys; return Ok(()); }
      var offset := p * pageSize;
      var data := inner.Read(offset, PageLen(devSize, pageSize, p));
      if data.Err? { return Err; }
      Insert(p, data.value);
      assert pages.Keys == old(pages.Keys) + {p};
      EnforceCacheLimit(Some(p));
      if maxCached != 0 { MostlyDirty(pages, p, maxCached); }
      r := Ok(());
    }

    /** Flush page `p` if it is dirty, and mark it clean once it is written. */
    method FlushPage(p: nat) returns (r: Result<()>)
      requires Valid()
      modifies this`pages, inner, lru
      ensures Valid() && View() == old(View()) && |inner.data| == |old(inner.data)|
      ensures SameBut(old(pages), pages)
      ensures Dirty(pages) == if r.Ok? then old(Dirty(pages)) - {p} else old(Dirty(pages))
      ensures inner.failures >= old(inner.failures) && (r.Ok? <==> inner.failures == old(inner.failures))
    {
      hide Stamped, L.Listed, Shown, CleanIsInner, L.Without, L.StampsOk, L.Inverse, Splice;
      if p !in pages || !pages[p].dirty { return Ok(()); }
      var stamp := pages[p].stamp;
      var len := PageLen(|inner.data|, pageSize, p);
      FlushShows(inner.data, pageSize, pages, p);
      FlushInSync(inner.data, pageSize, pages, p);
      r := inner.Write(p * pageSize, pages[p].data[..len]);
      if r.Err? { return; }
      MarkShows(inner.data, pageSize, pages, p);
      StampedMark(pages, stampCounter, p);
      if pages[p].stamp == stamp {
        pages := pages[p := pages[p].(dirty := false)];
        lru.Touch(p, true);
      }
    }

    /** Flush the given pages, stopping at the first failure. */
    method FlushIndices(indices: seq<nat>) returns (r: Result<()>)
      requires Valid()
      modifies this`pages, inner, lru
      ensures Valid() && View() == old(View()) && |inner.data| == |old(inner.data)|
      ensures SameBut(old(pages), pages)
      ensures Dirty(pages) <= old(Dirty(pages))
      ensures r.Ok? ==> Dirty(pages) == old(Dirty(pages)) - Elems(indices)
      ensures inner.failures >= old(inner.failures) && (r.Ok? <==> inner.failures == old(inner.failures))
    {
      hide Stamped, L.Listed, Shown, Shaped, CleanIsInner, L.Without, L.StampsOk, L.Inverse;
      var i := 0;
      while i < |indices|
        invariant 0 <= i <= |indices|
        invariant Valid() && View() == old(View()) && |inner.data| == |old(inner.data)|
        invariant SameBut(old(pages), pages)
        invariant Dirty(pages) == old(Dirty(pages)) - Elems(indices[..i])
        invariant inner.failures == old(inner.failures)
      {
        var w := FlushPage(indices[i]);
        if w.Err? { return Err; }
        assert indices[..i + 1] == indices[..i] + [indices[i]];
        i := i + 1;
      }
      assert indices[..i] == indices;
      r := Ok(());
    }

    /** Flush the oldest dirty pages over the limit. */
    method EnforceDirtyLimit() returns (r: Result<()>)
      requires Valid()
      modifies this`pages, inner, lru
      ensures Valid() && View() == old(View()) && |inner.data| == |old(inner.data)|
      ensures SameBut(old(pages), pages)
      ensures Dirty(pages) <= old(Dirty(pages))
      ensures r.Ok? ==> |Dirty(pages)| == if old(|Dirty(pages)|) <= maxDirty then old(|Dirty(pages)|) else maxDirty
      ensures r.Ok? ==> forall v, d | v in old(Dirty(pages)) - Dirty(pages) && d in Dirty(pages) :: Older(old(pages), v, d)
      ensures old(|Dirty(pages)|) <= maxDirty ==> r.Ok? && pages == old(pages) && inner.data == old(inner.data)
      ensures inner.failures >= old(inner.failures) && (r.Ok? <==> inner.failures == old(inner.failures))
    {
      hide Stamped, L.Listed, Shown, Shaped, CleanIsInner, L.Without, L.StampsOk, L.Inverse;
      var dirty := Dirty(pages);
      if |dirty| <= maxDirty { return Ok(()); }
      var victims := TakeOldest(pages, dirty, |dirty| - maxDirty);
      r := FlushIndices(victims);
    }

    /** Write back every dirty page, then flush the inner store. */
    method Flush() returns (r: Result<()>)
      requires Valid()
      modifies this`pages, inner, lru
      ensures Valid() && View() == old(View()) && SameBut(old(pages), pages)
      ensures r.Ok? ==> Dirty(pages) == {} && inner.flushed == inner.data == View()
      ensures inner.failures >= old(inner.failures) && (r.Ok? <==> inner.failures == old(inner.failures))
      ensures old(Bounded()) ==> Bounded()
    {
      hide Stamped, L.Listed, Shown, Shaped, CleanIsInner, L.Without, L.StampsOk, L.Inverse;
      var dirty := Dirty(pages);
      var indices := [];
      var rest := dirty;
      while rest != {}
        invariant Elems(indices) + rest == dirty && rest <= dirty
        decreases rest
      {
        var p :| p in rest;
        assert Elems(indices + [p]) == Elems(indices) + {p};
        indices := indices + [p];
        rest := rest - {p};
      }
      r := FlushIndices(indices);
      SubsetSize(Dirty(pages), old(Dirty(pages)));
      if r.Err? { return; }
      assert Dirty(pages) == {};
      AllCleanShowsInner(inner.data, pageSize, pages);
      r := inner.Sync();
    }

    /** Refresh the recency of a page just served, and trim the resident set around it. */
    method Refresh(p: nat)
      requires Valid() && p in pages
      modifies this`pages, lru
      ensures Valid() && View() == old(View()) && Dirty(pages) == old(Dirty(pages))
      ensures old(Bounded()) ==> Bounded()
      ensures L.Newest(lru.model) == Some(p) && p in pages
      ensures forall q | q in pages :: q in old(pages) && pages[q] == old(pages)[q]
      ensures Fits(old(pages.Keys)) ==> pages == old(pages)
    {
      hide Stamped, L.Listed, Shown, Shaped, CleanIsInner, L.Without, L.StampsOk, L.Inverse, L.Before, L.Newest;
      L.NewestStays(lru.model, p, !pages[p].dirty);
      lru.Touch(p, !pages[p].dirty);
      EnforceCacheLimit(Some(p));
      if maxCached != 0 { MostlyDirty(pages, p, maxCached); }
    }

    /** One chunk of a read, served from memory; serving may evict other clean pages. */
    method ReadChunk(at: nat, n: nat, size: nat) returns (r: Result<seq<Byte>>)
      requires Valid() && size == |inner.data| && 0 < n && at + n <= size && OnePage(at, n, pageSize)
      modifies this`pages, this`stampCounter, lru, inner`failures
      ensures Valid() && View() == old(View()) && Dirty(pages) == old(Dirty(pages))
      ensures r.Ok? ==> r.value == View()[at..at + n]
      ensures inner.failures >= old(inner.failures) && (r.Ok? <==> inner.failures == old(inner.failures))
      ensures old(Bounded()) ==> Bounded()
      ensures PageAt(at, pageSize) in old(pages) ==> r.Ok?
      ensures r.Ok? ==> L.Newest(lru.model) == Some(PageAt(at, pageSize))
      ensures r.Ok? && Fits(old(pages.Keys) + {PageAt(at, pageSize)}) ==>
                pages.Keys == old(pages.Keys) + {PageAt(at, pageSize)} && forall q | q in old(pages) :: pages[q] == old(pages)[q]
    {
      hide Stamped, L.Listed, Shown, Shaped, CleanIsInner, L.Without, L.StampsOk, L.Inverse, PageLen, L.Before, L.Newest;
      var p, o := PageAt(at, pageSize), at % pageSize;
      ChunkFits(at, n, size, pageSize);
      var got := EnsureResident(p, size);
      if got.Err? { return Err; }
      ChunkShows(inner.data, pageSize, pages, p, o, n);
      r := Ok(pages[p].data[o..o + n]);
      Refresh(p);
    }

    /**
      The first `pos` bytes of a read of `len` bytes are served: the page of the last one is the newest, and if all pages of
      the read fit, nothing was evicted.
    */
    ghost predicate ReadSoFar(was: Pages, offset: nat, pos: nat, len: nat)
      reads this`pages, lru
    {
      && pageSize > 0 && (pos < len ==> AtEdge(offset, pos, pageSize))
      && (pos > 0 ==> L.Newest(lru.model) == Some(PageAt(offset + pos - 1, pageSize)))
      && Kept(was, pages, offset, pos, len)
    }

    /** The next chunk of a read. */
    method ReadNext(ghost was: Pages, offset: nat, pos: nat, len: nat, size: nat) returns (r: Result<seq<Byte>>, n: nat)
      requires Valid() && size == |inner.data| && pos < len && offset + len <= size && ReadSoFar(was, offset, pos, len)
      modifies this`pages, this`stampCounter, lru, inner`failures
      ensures Valid() && View() == old(View()) && |View()| == size && Dirty(pages) == old(Dirty(pages))
      ensures 0 < n && pos + n <= len && (r.Ok? ==> r.value == View()[offset + pos..offset + pos + n])
      ensures r.Ok? ==> ReadSoFar(was, offset, pos + n, len)
      ensures InMemory(was, offset, len) ==> r.Ok?
      ensures inner.failures >= old(inner.failures) && (r.Ok? <==> inner.failures == old(inner.failures))
      ensures old(Bounded()) ==> Bounded()
    {
      hide Valid, View, ChunkSize, OnePage, AtEdge, PageAt, L.Newest, Dirty, Bounded, Fits, ReadSoFar, Kept, InMemory;
      ghost var before := pages;
      PageSizePositive();
      Keeps(was, offset, pos, len);
      if InMemory(was, offset, len) { HitNext(was, offset, pos, len); }
      n := ChunkSize(offset + pos, len - pos, pageSize);
      r := ReadChunk(offset + pos, n, size);
      ViewLength();
      if r.Ok? { ReadMore(was, before, offset, pos, n, len); }
    }

    /** Every page of a range is resident, and the resident pages fit. */
    ghost predicate InMemory(was: Pages, offset: nat, len: nat) {
      pageSize > 0 && Fits(was.Keys) && AllTouched(pageSize, offset, len) <= was.Keys
    }

    lemma HitNext(was: Pages, offset: nat, pos: nat, len: nat)
      requires ReadSoFar(was, offset, pos, len) && InMemory(was, offset, len) && pos < len
      ensures PageAt(offset + pos, pageSize) in pages
    {
      hide AllTouched, L.Newest, AtEdge;
      var p := PageAt(offset + pos, pageSize);
      PageRange(offset + pos, p, pageSize);
      assert was.Keys + AllTouched(pageSize, offset, len) == was.Keys;
      TouchedAre(pageSize, offset, len, was.Keys, was.Keys);
      assert Touches(p, pageSize, offset, len);
    }

    /** If all pages of the read fit, nothing of `was` is gone from `now`. */
    ghost predicate Kept(was: Pages, now: Pages, offset: nat, pos: nat, len: nat) {
      Fits(was.Keys + AllTouched(pageSize, offset, len)) ==>
        Added(was.Keys, now.Keys, pageSize, offset, pos) && forall q | q in was :: q in now && now[q] == was[q]
    }

    lemma Keeps(was: Pages, offset: nat, pos: nat, len: nat)
      requires ReadSoFar(was, offset, pos, len)
      ensures Kept(was, pages, offset, pos, len) && pageSize > 0 && (pos < len ==> AtEdge(offset, pos, pageSize))
    {
    }

    lemma ReadMore(was: Pages, before: Pages, offset: nat, pos: nat, n: nat, len: nat)
      requires pageSize > 0 && 0 < n && pos + n <= len && OnePage(offset + pos, n, pageSize) && AtEdge(offset, pos, pageSize)
      requires n == len - pos || !OnePage(offset + pos, n + 1, pageSize)
      requires Kept(was, before, offset, pos, len) && L.Newest(lru.model) == Some(PageAt(offset + pos, pageSize))
      requires var p := PageAt(offset + pos, pageSize);
        Fits(before.Keys + {p}) ==> pages.Keys == before.Keys + {p} && forall q | q in before :: pages[q] == before[q]
      ensures ReadSoFar(was, offset, pos + n, len)
    {
      hide OnePage, AtEdge, Touches, AllTouched, PageAt, Added, L.Newest, Fits;
      if n < len - pos { ChunkEnds(offset, pos, n, pageSize); }
      if Fits(was.Keys + AllTouched(pageSize, offset, len)) { ChunkFitsToo(was.Keys, before.Keys, offset, pos, n, len); }
      SamePage(offset + pos, n, pageSize);
    }

    lemma ReadBegins(offset: nat, len: nat)
      requires Valid()
      ensures ReadSoFar(pages, offset, 0, len)
    {
      NothingTouched(pageSize, offset, pages.Keys);
    }

    lemma ReadEnds(was: Pages, offset: nat, len: nat)
      requires ReadSoFar(was, offset, len, len)
      ensures len > 0 ==> L.Newest(lru.model) == Some(PageAt(offset + len - 1, pageSize))
      ensures Fits(was.Keys + AllTouched(pageSize, offset, len)) ==>
                pages.Keys == was.Keys + AllTouched(pageSize, offset, len) && forall q | q in was :: q in pages && pages[q] == was[q]
    {
      TouchedAre(pageSize, offset, len, was.Keys, pages.Keys);
    }

    /** The bytes of the device at `[offset, offset + len)`, served page by page from memory. */
    method Read(offset: nat, len: nat) returns (r: Result<seq<Byte>>)
      requires Valid()
      modifies this`pages, this`stampCounter, this`devSize, lru, inner`failures
      ensures Valid() && View() == old(View()) && Dirty(pages) == old(Dirty(pages))
      ensures len == 0 ==> r == Ok([])
      ensures inner.failures >= old(inner.failures)
      ensures r.Ok? <==> Accepted(offset, len, |View()|) && inner.failures == old(inner.failures)
      ensures r.Ok? && len > 0 ==> r.value == View()[offset..offset + len]
      ensures old(Bounded()) ==> Bounded()
      ensures r.Ok? && len > 0 ==> pageSize > 0 && L.Newest(lru.model) == Some(PageAt(offset + len - 1, pageSize))
      ensures r.Ok? && Fits(old(pages.Keys) + AllTouched(pageSize, offset, len)) ==>
                && pages.Keys == old(pages.Keys) + AllTouched(pageSize, offset, len)
                && forall q | q in old(pages) :: q in pages && pages[q] == old(pages)[q]
      ensures Accepted(offset, len, |View()|) && old(devSize) != 0 && InMemory(old(pages), offset, len) ==> r.Ok?
    {
      hide Valid, View, Aligned, AllTouched, PageAt, L.Newest, Dirty, Bounded, ReadSoFar, Fits, InMemory;
      ghost var was := pages;
      ViewLength();
      PageSizePositive();
      ReadBegins(offset, len);
      if len == 0 { ReadEnds(was, offset, 0); return Ok([]); }
      if !Aligned(offset) || !Aligned(len) { return Err; }
      var size := DevSize();
      if size.Err? { return Err; }
      if offset + len > size.value { return Err; }
      ReadBegins(offset, len);
      var result: seq<Byte> := [];
      var pos := 0;
      while pos < len
        invariant 0 <= pos <= len && Valid() && View() == old(View()) && Dirty(pages) == old(Dirty(pages))
        invariant |View()| == size.value == |inner.data| && offset + len <= |View()|
        invariant result == View()[offset..offset + pos] && inner.failures == old(inner.failures)
        invariant (old(Bounded()) ==> Bounded()) && ReadSoFar(was, offset, pos, len)
      {
        var chunk, n := ReadNext(was, offset, pos, len, size.value);
        if chunk.Err? { return Err; }
        result := result + chunk.value;
        pos := pos + n;
      }
      ReadEnds(was, offset, len);
      r := Ok(result);
    }

    /** If all pages of a request fit, so do those of its chunks so far and of the next one. */
    lemma ChunkFitsToo(keys: set<nat>, now: set<nat>, offset: nat, pos: nat, n: nat, len: nat)
      requires pageSize > 0 && n > 0 && pos + n <= len && OnePage(offset + pos, n, pageSize) && AtEdge(offset, pos, pageSize)
      requires Fits(keys + AllTouched(pageSize, offset, len)) && Added(keys, now, pageSize, offset, pos)
      ensures Fits(now + {PageAt(offset + pos, pageSize)}) && Added(keys, now + {PageAt(offset + pos, pageSize)}, pageSize, offset, pos + n)
    {
      hide OnePage, AtEdge, AllTouched, Added, PageAt;
      var next := now + {PageAt(offset + pos, pageSize)};
      AddedNext(keys, now, pageSize, offset, pos, n);
      TouchedAre(pageSize, offset, pos + n, keys, next);
      TouchedGrows(pageSize, offset, pos + n, len);
      SubsetSize(next, keys + AllTouched(pageSize, offset, len));
    }

    /** Put one chunk into a resident page, which becomes dirty and pinned. */
    method PutChunk(p: nat, o: nat, chunk: seq<Byte>, ghost at: nat)
      requires Valid() && p in pages && at == p * pageSize + o && at + |chunk| <= |inner.data|
      requires o + |chunk| <= PageLen(|inner.data|, pageSize, p)
      modifies this`pages, this`stampCounter, lru
      ensures Valid() && View() == Splice(old(View()), at, chunk)
      ensures Dirty(pages) == old(Dirty(pages)) + {p} && pages.Keys == old(pages.Keys)
      ensures stampCounter == old(stampCounter) + 1 && o + |chunk| <= |old(pages)[p].data| && pages == Put(old(pages), p, o, chunk, stampCounter)
      ensures L.Newest(lru.model) == Some(p)
    {
      hide Stamped, L.Listed, Shown, CleanIsInner, L.Without, L.StampsOk, L.Inverse, Splice, PageLen;
      stampCounter := stampCounter + 1;
      PutInSync(inner.data, pageSize, pages, p, o, chunk, stampCounter);
      PutShows(inner.data, pageSize, pages, p, o, chunk, stampCounter);
      StampedSet(pages, stampCounter - 1, p, Put(pages, p, o, chunk, stampCounter)[p], stampCounter);
      pages := Put(pages, p, o, chunk, stampCounter);
      L.NewestStays(lru.model, p, false);
      lru.Touch(p, false);
    }

    /** One chunk of a write: load the page, change it, keep the dirty limit. */
    method WriteChunk(at: nat, n: nat, chunk: seq<Byte>, size: nat) returns (r: Result<()>, done: bool)
      requires Valid() && size == |inner.data| && 0 < n == |chunk| && at + n <= size && OnePage(at, n, pageSize)
      modifies this`pages, this`stampCounter, inner, lru
      ensures Valid() && |inner.data| == size == |old(View())|
      ensures View() == if done then Splice(old(View()), at, chunk) else old(View())
      ensures r.Ok? ==> done && |Dirty(pages)| <= maxDirty
      ensures stampCounter >= old(stampCounter)
      ensures var p := PageAt(at, pageSize);
        && (done ==> p in pages && pages[p].stamp > old(stampCounter))
        && (forall q | q in pages && q != p :: q in old(pages) && pages[q].stamp == old(pages)[q].stamp)
        && (!done ==> pages == old(pages))
        && (done && Fits(old(pages.Keys) + {p}) ==> pages.Keys == old(pages.Keys) + {p})
        && (p in old(pages) ==> done)
        && (p in old(pages) && |old(Dirty(pages)) + {p}| <= maxDirty ==> r.Ok? && inner.data == old(inner.data))
      ensures inner.failures >= old(inner.failures) && (r.Ok? <==> inner.failures == old(inner.failures))
      ensures r.Ok? && old(Bounded()) ==> Bounded()
    {
      hide Stamped, L.Listed, Shown, Shaped, CleanIsInner, L.Without, L.StampsOk, L.Inverse, Splice, PageLen;
      var p, o := PageAt(at, pageSize), at % pageSize;
      ChunkFits(at, n, size, pageSize);
      var got := EnsureResident(p, size);
      if got.Err? { return Err, false; }
      PutChunk(p, o, chunk, at);
      r := EnforceDirtyLimit();
      done := true;
      KeysSize(pages);
    }

    /**
      The first `done` bytes of `payload` are written: they are on the device, each page they touch that is still resident
      was stamped since, and if all pages of the request fit, none was evicted.
    */
    ghost predicate Wrote(was: Before, offset: nat, payload: seq<Byte>, done: nat)
      requires Valid()
      reads this, inner`data, lru
    {
      && (if offset + |payload| <= |was.view| then done <= |payload| && View() == Splice(was.view, offset, payload[..done])
          else done == 0 && View() == was.view)
      && stampCounter >= was.counter && Restamped(pages, pageSize, offset, done, was.counter)
      && (Fits(was.keys + AllTouched(pageSize, offset, |payload|)) ==> Added(was.keys, pages.Keys, pageSize, offset, done))
    }

    ghost function Now(): Before
      requires Valid()
      reads this, inner`data, lru
    {
      Before(View(), pages.Keys, stampCounter)
    }

    lemma WroteNone(offset: nat, payload: seq<Byte>)
      requires Valid()
      ensures Wrote(Now(), offset, payload, 0) && Now().view == View()
    {
      hide Valid, View, Splice;
      if offset + |payload| <= |View()| { SpliceNothing(View(), offset); assert payload[..0] == []; }
      NothingTouched(pageSize, offset, pages.Keys);
    }

    lemma WroteIsPartly(was: Before, offset: nat, payload: seq<Byte>, done: nat)
      requires Valid() && pageSize > 0 && Wrote(was, offset, payload, done)
      ensures Partly(was.view, View(), offset, payload)
      ensures done == |payload| > 0 && offset + |payload| <= |was.view| ==> View() == Splice(was.view, offset, payload)
      ensures done == |payload| && Fits(was.keys + AllTouched(pageSize, offset, |payload|)) ==>
                pages.Keys == was.keys + AllTouched(pageSize, offset, |payload|)
    {
      hide Valid, View, Splice, AllTouched, Added, Fits;
      if offset + |payload| <= |was.view| { PartlyUpTo(was.view, View(), offset, payload, done); }
      assert payload[..|payload|] == payload;
      TouchedAre(pageSize, offset, |payload|, was.keys, pages.Keys);
    }

    /** One more chunk. */
    lemma WroteMore(was: Before, offset: nat, payload: seq<Byte>, pos: nat, n: nat, view: seq<Byte>, before: Pages)
      requires Valid() && pageSize > 0 && offset + |payload| <= |was.view| && 0 < n && pos + n <= |payload|
      requires OnePage(offset + pos, n, pageSize) && AtEdge(offset, pos, pageSize) && stampCounter >= was.counter
      requires view == Splice(was.view, offset, payload[..pos]) && Restamped(before, pageSize, offset, pos, was.counter)
      requires Fits(was.keys + AllTouched(pageSize, offset, |payload|)) ==> Added(was.keys, before.Keys, pageSize, offset, pos)
      requires View() == Splice(view, offset + pos, payload[pos..pos + n])
      requires var p := PageAt(offset + pos, pageSize);
        && p in pages && pages[p].stamp > was.counter
        && (forall q | q in pages && q != p :: q in before && pages[q].stamp == before[q].stamp)
        && (Fits(before.Keys + {p}) ==> pages.Keys == before.Keys + {p})
      ensures Wrote(was, offset, payload, pos + n)
    {
      hide Valid, View, Splice, OnePage, AtEdge, AllTouched, PageAt, Added, Fits, Restamped;
      SpliceParts(was.view, offset, payload, pos, pos + n);
      RestampedNext(before, pages, pageSize, offset, pos, n, was.counter);
      if Fits(was.keys + AllTouched(pageSize, offset, |payload|)) {
        ChunkFitsToo(was.keys, before.Keys, offset, pos, n, |payload|);
      }
    }

    /** The next chunk of a write of `payload`, of which the first `pos` bytes are written; `next` is how many are then. */
    method WriteNext(ghost was: Before, offset: nat, ghost payload: seq<Byte>, pos: nat, n: nat, chunk: seq<Byte>, size: nat)
      returns (r: Result<()>, ghost next: nat)
      requires Valid() && offset + |payload| <= |was.view| == size == |inner.data| && 0 < n && pos + n <= |payload|
      requires chunk == payload[pos..pos + n] && OnePage(offset + pos, n, pageSize) && pageSize > 0 && AtEdge(offset, pos, pageSize)
      requires Wrote(was, offset, payload, pos)
      modifies this`pages, this`stampCounter, inner, lru
      ensures Valid() && |View()| == size == |inner.data|
      ensures Wrote(was, offset, payload, next) && (r.Ok? ==> next == pos + n)
      ensures r.Ok? ==> |Dirty(pages)| <= maxDirty
      ensures r.Ok? && old(Bounded()) ==> Bounded()
      ensures inner.failures >= old(inner.failures) && (r.Ok? <==> inner.failures == old(inner.failures))
    {
      hide Valid, View, Bounded, Splice, OnePage, AtEdge, AllTouched, PageAt, Added, Fits, Restamped, Dirty;
      ghost var view, before := View(), pages;
      var done;
      r, done := WriteChunk(offset + pos, n, chunk, size);
      ViewLength();
      next := if done then pos + n else pos;
      if done { WroteMore(was, offset, payload, pos, n, view, before); }
    }

    /** Write `data` at `offset`; a failure leaves a prefix written, `done` bytes long. */
    method Write(offset: nat, data: seq<Byte>) returns (r: Result<()>, ghost done: nat)
      requires Valid()
      modifies this, inner, lru
      ensures Valid() && |View()| == |old(View())|
      ensures inner.failures >= old(inner.failures)
      ensures r.Ok? <==> Accepted(offset, |data|, |old(View())|) && inner.failures == old(inner.failures)
      ensures r.Ok? ==> View() == if data == [] then old(View()) else Splice(old(View()), offset, data)
      ensures r.Err? ==> Partly(old(View()), View(), offset, data)
      ensures r.Ok? && data != [] ==> |Dirty(pages)| <= maxDirty
      ensures r.Ok? && old(Bounded()) ==> Bounded()
      ensures Wrote(old(Now()), offset, data, done) && (r.Ok? ==> done == |data|)
    {
      hide Valid, View, Bounded, Splice, Partly, ChunkSize, OnePage, AtEdge, Aligned, Dirty, Wrote, AllTouched, Fits;
      ViewLength();
      PageSizePositive();
      ghost var was := Now();
      WroteNone(offset, data);
      WroteIsPartly(was, offset, data, 0);
      done := 0;
      if data == [] { return Ok(()), 0; }
      if !Aligned(offset) || !Aligned(|data|) { return Err, 0; }
      var size := DevSize();
      WroteNone(offset, data);
      if size.Err? { return Err, 0; }
      var len := |data|;
      if offset + len > size.value { return Err, 0; }
      var pos := 0;
      FirstEdge(offset, pageSize);
      while pos < len
        invariant Valid() && 0 <= pos <= len && offset + len <= |was.view| == |inner.data| == size.value == |View()|
        invariant Wrote(was, offset, data, pos) && (pos < len ==> AtEdge(offset, pos, pageSize))
        invariant pos > 0 ==> |Dirty(pages)| <= maxDirty
        invariant inner.failures == old(inner.failures)
        invariant old(Bounded()) ==> Bounded()
      {
        var at := offset + pos;
        var n := ChunkSize(at, len - pos, pageSize);
        if n < len - pos { ChunkEnds(offset, pos, n, pageSize); }
        r, done := WriteNext(was, offset, data, pos, n, data[pos..pos + n], size.value);
        WroteIsPartly(was, offset, data, done);
        if r.Err? { return r, done; }
        pos := pos + n;
      }
      WroteIsPartly(was, offset, data, pos);
      return Ok(()), pos;
    }

    /** Zero `[offset, offset + len)`. */
    method Clear(offset: nat, len: nat) returns (r: Result<()>, ghost done: nat)
      requires Valid()
      modifies this, inner, lru
      ensures Valid() && |View()| == |old(View())|
      ensures inner.failures >= old(inner.failures)
      ensures r.Ok? <==> Accepted(offset, len, |old(View())|) && inner.failures == old(inner.failures)
      ensures r.Ok? ==> View() == if len == 0 then old(View()) else Splice(old(View()), offset, Zeroed(len))
      ensures r.Err? ==> Partly(old(View()), View(), offset, Zeroed(len))
      ensures r.Ok? && old(Bounded()) ==> Bounded()
      ensures Wrote(old(Now()), offset, Zeroed(len), done) && (r.Ok? ==> done == len)
    {
      hide Valid, View, Bounded, Splice, Partly, ChunkSize, OnePage, AtEdge, Aligned, Dirty, Zeroed, Wrote, AllTouched,
           Fits;
      ViewLength();
      PageSizePositive();
      ghost var was := Now();
      ghost var zs := Zeroed(len);
      WroteNone(offset, zs);
      WroteIsPartly(was, offset, zs, 0);
      done := 0;
      if len == 0 { return Ok(()), 0; }
      if !Aligned(offset) || !Aligned(len) { return Err, 0; }
      var size := DevSize();
      WroteNone(offset, zs);
      if size.Err? { return Err, 0; }
      if offset + len > size.value { return Err, 0; }
      var pos := 0;
      FirstEdge(offset, pageSize);
      while pos < len
        invariant Valid() && 0 <= pos <= len && offset + len <= |was.view| == |inner.data| == size.value == |View()|
        invariant Wrote(was, offset, zs, pos) && (pos < len ==> AtEdge(offset, pos, pageSize))
        invariant inner.failures == old(inner.failures)
        invariant old(Bounded()) ==> Bounded()
      {
        var at := offset + pos;
        var n := ChunkSize(at, len - pos, pageSize);
        if n < len - pos { ChunkEnds(offset, pos, n, pageSize); }
        ZeroSlice(len, pos, n);
        r, done := WriteNext(was, offset, zs, pos, n, Zeroed(n), size.value);
        WroteIsPartly(was, offset, zs, done);
        if r.Err? { return r, done; }
        pos := pos + n;
      }
      WroteIsPartly(was, offset, zs, pos);
      return Ok(()), pos;
    }
  }

  /** `new`: a buffer over `inner`, or nothing if the configuration is not acceptable. */
  method New(inner: Remote, pageSize: nat, maxDirty: nat, maxCached: nat) returns (r: Result<BufferedBackend>)
    ensures r.Ok? <==> BufferedBackend.ConfigOk(pageSize, maxDirty, maxCached)
    ensures r.Ok? ==> r.value.Valid() && r.value.Bounded() && r.value.inner == inner && r.value.View() == inner.data
  {
    if pageSize < SECTOR || !Aligned(pageSize) { return Err; }
    if maxDirty == 0 { return Err; }
    if maxCached != 0 && maxCached < maxDirty { return Err; }
    var b := new BufferedBackend(inner, pageSize, maxDirty, maxCached);
    r := Ok(b);
  }

  /** `now` is what is left of `was`, each page that went used before every other page that could have gone. */
  ghost predicate Evicted(was: Pages, order: seq<nat>, now: Pages, protect: Option<nat>) {
    && now.Keys <= was.Keys
    && (forall p | p in now :: now[p] == was[p])
    && (forall e, q | e in was && e !in now && q in now && !now[q].dirty && Some(q) != protect :: L.Before(order, e, q))
  }

  lemma EvictedNone(pages: Pages, order: seq<nat>, protect: Option<nat>)
    ensures Evicted(pages, order, pages, protect) && L.Suborder(order, order)
  {
  }

  lemma OneEvicted(was: Pages, order: seq<nat>, now: Pages, r: L.Recency, protect: Option<nat>, v: nat)
    requires Evicted(was, order, now, protect) && L.Suborder(r.order, order) && r.Victim(protect) == Some(v) && v in now
    requires L.Listed(r) == now.Keys && r.clean == Clean(now)
    ensures Evicted(was, order, now - {v}, protect) && L.Suborder(r.Drop(v).order, order)
  {
    hide L.Before, L.Without, L.FirstClean;
    var t := now - {v};
    forall e, q | e in was && e !in t && q in t && !t[q].dirty && Some(q) != protect ensures L.Before(order, e, q) {
      assert q in L.Listed(r);
      L.VictimIsOldest(r.order, r.clean, protect, q);
    }
    forall a, b | L.Before(r.Drop(v).order, a, b) ensures L.Before(order, a, b) {
      L.WithoutKeepsOrder(r.order, v, a, b);
    }
  }

  /** Above the limit there are only dirty pages and one more. */
  lemma MostlyDirty(pages: Pages, p: nat, max: nat)
    requires |pages| > max ==> forall q | q in pages :: pages[q].dirty || q == p
    ensures |pages| <= max || |pages| <= |Dirty(pages)| + 1
  {
    if |pages| > max {
      assert pages.Keys <= Dirty(pages) + {p};
      SubsetSize(pages.Keys, Dirty(pages) + {p});
    }
  }

  lemma {:induction false} SubsetSize(a: set<nat>, b: set<nat>)
    requires a <= b
    ensures |a| <= |b|
  {
    if a != {} {
      var x :| x in a;
      SubsetSize(a - {x}, b - {x});
    }
  }

  lemma KeysSize(pages: Pages)
    ensures |pages| == |pages.Keys|
  {
  }
}
