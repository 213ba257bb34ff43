/**
  The local-disk cache as one client at a time runs it, in place: the data file, the metadata file, the packed
  bitmaps and the page generations.

  Every operation is proved to act on the flat device the cache shows and to leave the metadata file in step, so a
  restart between operations shows the same device.
*/
module FileCacheBackend {
  import opened Common
  import opened Store
  import opened Device
  import opened Metadata
  import opened MetaFile
  import PM = PageMap
  import DP = DiskPages

  function NumPages(dev: nat, ps: nat): nat
    requires ps > 0
  {
    (dev + ps - 1) / ps
  }

  /** Page numbers run exactly over the pages that lie on the device. */
  lemma PageOnDevice(dev: nat, ps: nat, p: nat)
    requires ps > 0
    ensures p < NumPages(dev, ps) <==> PM.PageLen(dev, ps, p) > 0
  {
    var n := NumPages(dev, ps);
    PM.PageRange(dev + ps - 1, n, ps);
    if p < n { PM.Scaled(p + 1, n, ps); PM.Scaled(p, p, ps); } else { PM.Scaled(n, p, ps); }
  }

  /** Every page has its bit in the bitmaps. */
  lemma PageInBitmap(num: nat, p: nat)
    requires p < num
    ensures p / 8 < BitmapBytes(num)
  {
  }

  /** A data file set to the device size: cut, or extended with zeros. */
  function Resized(file: seq<Byte>, dev: nat): (r: seq<Byte>)
    ensures |r| == dev
  {
    if |file| >= dev then file[..dev] else file + Zeroed(dev - |file|)
  }

  /** The bytes of page `p` in the inner store. */
  function PageOf(inner: seq<Byte>, ps: nat, p: nat): seq<Byte>
    requires PM.PageLen(|inner|, ps, p) > 0
  {
    inner[p * ps..p * ps + PM.PageLen(|inner|, ps, p)]
  }

  predicate AllZero(page: seq<Byte>) { forall k | 0 <= k < |page| :: page[k] == 0 }

  lemma ZeroPage(page: seq<Byte>)
    requires AllZero(page)
    ensures page == Zeroed(|page|)
  {
  }

  // ----- Generations -----

  function Bump(g: nat): nat { (g + 1) % GENERATIONS }

  /** The generations after `n` bytes were written from `offset`: each page touched moves on by one. */
  function Bumped(g: seq<nat>, ps: nat, offset: nat, n: nat): (r: seq<nat>)
    ensures |r| == |g|
    ensures forall q | 0 <= q < |g| :: r[q] == if PM.Touches(q, ps, offset, n) then Bump(g[q]) else g[q]
  {
    seq(|g|, q requires 0 <= q < |g| => if PM.Touches(q, ps, offset, n) then Bump(g[q]) else g[q])
  }

  predicate InRange(g: seq<nat>) { forall q | 0 <= q < |g| :: g[q] < GENERATIONS }

  lemma BumpMoves(g: nat)
    requires g < GENERATIONS
    ensures Bump(g) < GENERATIONS && Bump(g) != g
  {
  }

  lemma BumpedNone(g: seq<nat>, ps: nat, offset: nat)
    ensures Bumped(g, ps, offset, 0) == g
  {
  }

  lemma BumpedNext(g: seq<nat>, ps: nat, offset: nat, pos: nat, n: nat)
    requires ps > 0 && n > 0 && PM.OnePage(offset + pos, n, ps) && PM.AtEdge(offset, pos, ps) && PM.PageAt(offset + pos, ps) < |g|
    ensures var p, now := PM.PageAt(offset + pos, ps), Bumped(g, ps, offset, pos);
      now[p := Bump(now[p])] == Bumped(g, ps, offset, pos + n)
  {
    hide PM.Touches, PM.OnePage, PM.AtEdge, PM.PageAt, Bump;
    var p, now, next := PM.PageAt(offset + pos, ps), Bumped(g, ps, offset, pos), Bumped(g, ps, offset, pos + n);
    forall q | 0 <= q < |g| ensures now[p := Bump(now[p])][q] == next[q] { PM.TouchesNext(q, ps, offset, pos, n); }
  }

  /** What a write starts from: the device shown, the generations, and the bits. */
  datatype Before = Before(view: seq<Byte>, gens: seq<nat>, present: set<nat>, dirty: set<nat>)

  class FileCacheBackend {
    const inner: Remote
    const pageSize: nat
    const devSize: nat
    /** Whether the filesystem can punch holes. */
    const punchHoles: bool
    var data: seq<Byte>
    var meta: seq<Byte>
    var present: Bitmap
    var dirty: Bitmap
    var gens: seq<nat>

    ghost predicate Sized()
      reads this, inner`data
    {
      && 0 < pageSize && Aligned(pageSize) && 0 < devSize == |inner.data|
      && IsU64(pageSize) && IsU64(devSize)
      && |gens| == NumPages(devSize, pageSize) && InRange(gens)
    }

    ghost predicate Valid()
      reads this, inner`data
    {
      && Sized()
      && OnDisk(meta, pageSize, devSize, NumPages(devSize, pageSize), present, dirty)
      && DP.Shape(inner.data, data, pageSize, Pages(present), Pages(dirty))
      && DP.CleanIsInner(inner.data, data, pageSize, Pages(present), Pages(dirty))
    }

    /** The device a client sees. */
    ghost function View(): seq<Byte>
      requires Valid()
      reads this, inner`data
    {
      DP.Shown(inner.data, data, pageSize, Pages(present))
    }

    lemma Sizes()
      requires Valid()
      ensures pageSize > 0 && |View()| == devSize
    {
    }

    lemma FitsU64()
      requires Valid()
      ensures IsU64(devSize)
    {
    }

    /**
      Open over what a previous run left in the files.  `trusted` says the recorded validity token matches the
      live one or there is none; then the clean pages are kept.  Otherwise they are dropped.  Dirty pages are always
      kept.  The cache is in order if what was found is usable.
    */
    constructor (inner: Remote, pageSize: nat, devSize: nat, punchHoles: bool, dataFile: seq<Byte>, metaFile: seq<Byte>, trusted: bool)
      requires 0 < pageSize && Aligned(pageSize) && 0 < devSize == |inner.data| && IsU64(pageSize) && IsU64(devSize)
      ensures this.inner == inner && this.pageSize == pageSize && this.devSize == devSize && this.punchHoles == punchHoles
      ensures data == Resized(dataFile, devSize) && Sized()
      ensures OnDisk(meta, pageSize, devSize, NumPages(devSize, pageSize), present, dirty)
      ensures var found := Decode(metaFile, pageSize, devSize, NumPages(devSize, pageSize));
              if found.None? then Pages(present) == {} && Pages(dirty) == {}
              else Pages(dirty) == Pages(found.value.1)
                   && Pages(present) == Kept(Pages(found.value.0), Pages(found.value.1), NumPages(devSize, pageSize), trusted)
      ensures Usable(inner.data, pageSize, devSize, dataFile, metaFile, trusted) ==> Valid()
    {
      this.inner := inner;
      this.pageSize := pageSize;
      this.devSize := devSize;
      this.punchHoles := punchHoles;
      data := Resized(dataFile, devSize);
      var num := NumPages(devSize, pageSize);
      var m, pr, di, count := LoadOrInitMeta(metaFile, pageSize, devSize, num);
      ghost var before := pr;
      if !trusted {
        var dropped;
        m, pr, dropped := DropCleanPages(m, pageSize, devSize, num, pr, di);
      }
      KeptAll(inner.data, Resized(dataFile, devSize), pageSize, Pages(before), Pages(di), trusted);
      meta, present, dirty := m, pr, di;
      gens := seq(num, i => 0);
    }

    /** Bring the file's copy of a page's two bitmap bytes up to date. */
    method PersistMetaBit(p: nat, ghost present0: Bitmap, ghost dirty0: Bitmap, ghost a: bool, ghost b: bool)
      requires Sized() && p < NumPages(devSize, pageSize)
      requires OnDisk(meta, pageSize, devSize, NumPages(devSize, pageSize), present0, dirty0)
      requires p / 8 < |present0| && present == BitSet(present0, p, a) && dirty == BitSet(dirty0, p, b)
      modifies this`meta
      ensures OnDisk(meta, pageSize, devSize, NumPages(devSize, pageSize), present, dirty)
    {
      hide Decode, NumPages, BitSet, BitmapBytes;
      var num := NumPages(devSize, pageSize);
      OnDiskLength(meta, pageSize, devSize, num, present0, dirty0);
      PersistKeepsOnDisk(meta, pageSize, devSize, num, present0, dirty0, p, a, b);
      meta := Persisted(meta, num, present, dirty, p);
    }

    /** Set page `p`'s present bit in memory and its byte in the file. */
    method SetPresent(p: nat, value: bool)
      requires Sized() && p < NumPages(devSize, pageSize)
      requires OnDisk(meta, pageSize, devSize, NumPages(devSize, pageSize), present, dirty)
      modifies this`present, this`meta
      ensures OnDisk(meta, pageSize, devSize, NumPages(devSize, pageSize), present, dirty)
      ensures Pages(present) == if value then old(Pages(present)) + {p} else old(Pages(present)) - {p}
    {
      hide Decode, NumPages, Metadata.Pages, BitGet, BitSet;
      PageInBitmap(NumPages(devSize, pageSize), p);
      BitSetPages(present, p, value);
      PersistPresentOnDisk(meta, pageSize, devSize, NumPages(devSize, pageSize), present, dirty, p, value);
      present := BitSet(present, p, value);
      meta := meta[HEADER_SIZE + p / 8 := present[p / 8]];
    }

    /**
      Keep a fetched page as clean.  An all-zero page is kept as a hole where the filesystem can, unless the punch
      fails, which `punched` tells.
    */
    method StoreCleanPage(p: nat, page: seq<Byte>, punched: bool) returns (hole: bool)
      requires Valid() && p !in Pages(present) && PM.PageLen(devSize, pageSize, p) > 0
      requires page == PageOf(inner.data, pageSize, p)
      modifies this`data, this`present, this`meta
      ensures Valid() && View() == old(View())
      ensures Pages(present) == old(Pages(present)) + {p}
      ensures hole <==> AllZero(page) && punchHoles && punched
    {
      hide Decode, OnDisk, DP.Shape, DP.CleanIsInner, DP.Shown, PM.PageLen, NumPages, Splice, Metadata.Pages, BitGet,
           AllZero;
      DataLength(this);
      PageOnDevice(devSize, pageSize, p);
      DP.StoreShows(inner.data, data, pageSize, Pages(present), Pages(dirty), p);
      hole := AllZero(page) && punchHoles && punched;
      if hole {
        ZeroPage(page);
        data := Splice(data, p * pageSize, Zeroed(|page|));
      } else {
        data := Splice(data, p * pageSize, page);
      }
      SetPresent(p, true);
    }

    /** Make page `p` present, from the inner store if need be; `hole` says it was stored without using any disk. */
    method EnsurePage(p: nat, punched: bool) returns (r: Result<()>, hole: bool)
      requires Valid() && PM.PageLen(devSize, pageSize, p) > 0
      modifies this`data, this`present, this`meta, inner`failures
      ensures Valid() && View() == old(View())
      ensures Pages(present) == if r.Ok? then old(Pages(present)) + {p} else old(Pages(present))
      ensures inner.failures >= old(inner.failures) && (r.Ok? <==> inner.failures == old(inner.failures))
      ensures hole <==> r.Ok? && p !in old(Pages(present)) && ZeroAt(p) && punchHoles && punched
      ensures p in old(Pages(present)) ==> r.Ok?
    {
      hide Decode, OnDisk, DP.Shape, DP.CleanIsInner, DP.Shown, PM.PageLen, NumPages;
      hole := false;
      if BitGet(present, p) { return Ok(()), false; }
      var page := inner.Read(p * pageSize, PM.PageLen(devSize, pageSize, p));
      if page.Err? { return Err, false; }
      hole := StoreCleanPage(p, page.value, punched);
      r := Ok(());
    }

    /** Page `p` of the inner store is all zeros. */
    ghost predicate ZeroAt(p: nat)
      requires PM.PageLen(devSize, pageSize, p) > 0 && devSize == |inner.data|
      reads inner`data
    {
      AllZero(PageOf(inner.data, pageSize, p))
    }

    /** Write part of a page and mark it dirty; the page is present, or the part is all of it. */
    method DirtyPageRegion(p: nat, o: nat, payload: seq<Byte>, ghost at: nat)
      requires Valid() && 0 < |payload| && o + |payload| <= PM.PageLen(devSize, pageSize, p)
      requires p in Pages(present) || (o == 0 && |payload| == PM.PageLen(devSize, pageSize, p))
      requires at == p * pageSize + o && at + |payload| <= devSize
      modifies this`data, this`present, this`dirty, this`gens, this`meta
      ensures Valid() && View() == Splice(old(View()), at, payload)
      ensures Pages(present) == old(Pages(present)) + {p} && Pages(dirty) == old(Pages(dirty)) + {p}
      ensures |old(data)| == devSize && data == Splice(old(data), at, payload)
      ensures p < |old(gens)| && gens == old(gens)[p := Bump(old(gens)[p])] && gens[p] != old(gens)[p]
    {
      hide Decode, DP.Shape, DP.CleanIsInner, DP.Shown, PM.PageLen, NumPages, Splice, BitSet, Metadata.Pages, BitGet;
      DataLength(this);
      PageOnDevice(devSize, pageSize, p);
      PageInBitmap(NumPages(devSize, pageSize), p);
      DP.DirtyShows(inner.data, data, pageSize, Pages(present), p, o, payload);
      DP.DirtyInSync(inner.data, data, pageSize, Pages(present), Pages(dirty), p, o, payload);
      data := Splice(data, p * pageSize + o, payload);
      BitSetPages(present, p, true);
      BitSetPages(dirty, p, true);
      present := BitSet(present, p, true);
      dirty := BitSet(dirty, p, true);
      BumpMoves(gens[p]);
      gens := gens[p := (gens[p] + 1) % GENERATIONS];
      PersistMetaBit(p, old(present), old(dirty), true, true);
    }

    /** Where a chunk within one page comes from. */
    lemma ReadView(at: nat, n: nat)
      requires Valid() && at + n <= devSize && PM.OnePage(at, n, pageSize)
      ensures |View()| == |data| == |inner.data| == devSize
      ensures View()[at..at + n] == if BitGet(present, PM.PageAt(at, pageSize)) then data[at..at + n] else inner.data[at..at + n]
    {
      hide Decode, OnDisk, DP.Shape, DP.CleanIsInner, DP.Shown, NumPages, PM.OnePage, PM.PageAt;
      DataLength(this);
      DP.ReadShows(inner.data, data, pageSize, Pages(present), at, n);
    }

    /** One chunk of a read: a present page is served from the data file, a miss from the inner store. */
    method ReadChunk(at: nat, n: nat) returns (r: Result<seq<Byte>>)
      requires Valid() && at + n <= devSize && PM.OnePage(at, n, pageSize)
      modifies inner`failures
      ensures r.Ok? ==> r.value == View()[at..at + n]
      ensures PM.PageAt(at, pageSize) in Pages(present) ==> r.Ok?
      ensures inner.failures >= old(inner.failures) && (r.Ok? <==> inner.failures == old(inner.failures))
    {
      hide Valid, View, BitGet, PM.OnePage, PM.PageAt;
      Sizes();
      ReadView(at, n);
      if BitGet(present, PM.PageAt(at, pageSize)) {
        r := Ok(data[at..at + n]);
      } else {
        r := inner.Read(at, n);
      }
    }

    /** Every page of a range is present. */
    ghost predicate Holds(offset: nat, len: nat)
      reads this`present
    {
      forall q: nat | PM.Touches(q, pageSize, offset, len) :: q in Pages(present)
    }

    lemma HoldsAt(offset: nat, len: nat, pos: nat)
      requires pageSize > 0 && pos < len && Holds(offset, len)
      ensures PM.PageAt(offset + pos, pageSize) in Pages(present)
    {
      PM.PageRange(offset + pos, PM.PageAt(offset + pos, pageSize), pageSize);
      assert PM.Touches(PM.PageAt(offset + pos, pageSize), pageSize, offset, len);
    }

    /** The bytes of the device at `[offset, offset + len)`; a miss goes to the inner store and caches nothing. */
    method Read(offset: nat, len: nat) returns (r: Result<seq<Byte>>)
      requires Valid()
      modifies inner`failures
      ensures len == 0 ==> r == Ok([])
      ensures inner.failures >= old(inner.failures)
      ensures r.Ok? <==> Accepted(offset, len, |View()|) && inner.failures == old(inner.failures)
      ensures r.Ok? && len > 0 ==> r.value == View()[offset..offset + len]
      ensures Accepted(offset, len, |View()|) && Holds(offset, len) ==> r.Ok?
    {
      hide Decode, DP.Shape, DP.CleanIsInner, DP.Shown, NumPages, PM.ChunkSize, PM.OnePage, Aligned, Holds, PM.PageAt, Metadata.Pages;
      if len == 0 { return Ok([]); }
      if !Aligned(offset) || !Aligned(len) { return Err; }
      if offset + len > devSize { return Err; }
      var result: seq<Byte> := [];
      var pos := 0;
      while pos < len
        invariant 0 <= pos <= len && result == View()[offset..offset + pos] && inner.failures == old(inner.failures)
      {
        var at := offset + pos;
        var n := PM.ChunkSize(at, len - pos, pageSize);
        if Holds(offset, len) { HoldsAt(offset, len, pos); }
        var chunk := ReadChunk(at, n);
        if chunk.Err? { return Err; }
        result := result + chunk.value;
        pos := pos + n;
      }
      r := Ok(result);
    }

    /** One chunk of a write: a partial page is made present first. */
    method WriteChunk(at: nat, n: nat, chunk: seq<Byte>) returns (r: Result<()>)
      requires Valid() && 0 < n == |chunk| && at + n <= devSize && PM.OnePage(at, n, pageSize)
      modifies this`data, this`present, this`dirty, this`gens, this`meta, inner`failures
      ensures Valid()
      ensures View() == if r.Ok? then Splice(old(View()), at, chunk) else old(View())
      ensures Pages(dirty) == if r.Ok? then old(Pages(dirty)) + {PM.PageAt(at, pageSize)} else old(Pages(dirty))
      ensures Pages(present) == if r.Ok? then old(Pages(present)) + {PM.PageAt(at, pageSize)} else old(Pages(present))
      ensures var p := PM.PageAt(at, pageSize);
        && p < |old(gens)| && gens == (if r.Ok? then old(gens)[p := Bump(old(gens)[p])] else old(gens))
        && (n == pageSize || p in old(Pages(present)) ==> r.Ok?)
      ensures inner.failures >= old(inner.failures) && (r.Ok? <==> inner.failures == old(inner.failures))
    {
      hide Decode, DP.Shape, DP.CleanIsInner, DP.Shown, NumPages, Splice, PM.PageLen, Bump, OnDisk, Metadata.Pages;
      var p, o := PM.PageAt(at, pageSize), at % pageSize;
      PM.ChunkFits(at, n, devSize, pageSize);
      PageOnDevice(devSize, pageSize, p);
      if n != pageSize {
        var punched: bool := *;
        var got, hole := EnsurePage(p, punched);
        if got.Err? { return Err; }
      }
      DirtyPageRegion(p, o, chunk, at);
      r := Ok(());
    }

    /**
      The first `done` bytes of `payload` are written: they are on the device, the pages they touch are present and dirty,
      and the generation of each has moved on by one.
    */
    ghost predicate Wrote(was: Before, offset: nat, payload: seq<Byte>, done: nat)
      requires Valid()
      reads this, inner`data
    {
      && (if offset + |payload| <= |was.view| then done <= |payload| && View() == Splice(was.view, offset, payload[..done])
          else done == 0 && View() == was.view)
      && gens == Bumped(was.gens, pageSize, offset, done)
      && PM.Added(was.present, Pages(present), pageSize, offset, done)
      && PM.Added(was.dirty, Pages(dirty), pageSize, offset, done)
    }

    /** The state a write starts from. */
    ghost function Now(): Before
      requires Valid()
      reads this, inner`data
    {
      Before(View(), gens, Pages(present), Pages(dirty))
    }

    lemma WroteNone(offset: nat, payload: seq<Byte>)
      requires Valid()
      ensures Wrote(Now(), offset, payload, 0)
    {
      if offset + |payload| <= |View()| { SpliceNothing(View(), offset); assert payload[..0] == []; }
      BumpedNone(gens, pageSize, offset);
    }

    lemma WroteIsPartly(was: Before, offset: nat, payload: seq<Byte>, done: nat)
      requires Valid() && Wrote(was, offset, payload, done)
      ensures Partly(was.view, View(), offset, payload)
      ensures done == |payload| > 0 && offset + |payload| <= |was.view| ==> View() == Splice(was.view, offset, payload)
    {
      hide Splice;
      if offset + |payload| <= |was.view| { PartlyUpTo(was.view, View(), offset, payload, done); }
      assert payload[..|payload|] == payload;
    }

    /** One more chunk. */
    lemma WroteMore(was: Before, offset: nat, payload: seq<Byte>, pos: nat, n: nat, now: Before)
      requires Valid() && pageSize > 0 && offset + |payload| <= |was.view| && 0 < n && pos + n <= |payload| && |was.gens| == |gens|
      requires PM.OnePage(offset + pos, n, pageSize) && PM.AtEdge(offset, pos, pageSize) && PM.PageAt(offset + pos, pageSize) < |gens|
      requires now.view == Splice(was.view, offset, payload[..pos]) && now.gens == Bumped(was.gens, pageSize, offset, pos)
      requires PM.Added(was.present, now.present, pageSize, offset, pos) && PM.Added(was.dirty, now.dirty, pageSize, offset, pos)
      requires View() == Splice(now.view, offset + pos, payload[pos..pos + n])
      requires var p := PM.PageAt(offset + pos, pageSize);
        gens == now.gens[p := Bump(now.gens[p])] && Pages(present) == now.present + {p} && Pages(dirty) == now.dirty + {p}
      ensures Wrote(was, offset, payload, pos + n)
    {
      hide View, Valid, Splice, PM.OnePage, PM.AtEdge, PM.PageAt, PM.Added, Metadata.Pages, Bump, Bumped;
      SpliceParts(was.view, offset, payload, pos, pos + n);
      BumpedNext(was.gens, pageSize, offset, pos, n);
      PM.AddedNext(was.present, now.present, pageSize, offset, pos, n);
      PM.AddedNext(was.dirty, now.dirty, pageSize, offset, pos, n);
    }

    /** The next chunk of a write of `payload`, of which the first `pos` bytes are written. */
    method WriteNext(ghost was: Before, offset: nat, ghost payload: seq<Byte>, pos: nat, n: nat, chunk: seq<Byte>) returns (r: Result<()>)
      requires Valid() && offset + |payload| <= |was.view| == devSize && 0 < n && pos + n <= |payload|
      requires chunk == payload[pos..pos + n] && PM.OnePage(offset + pos, n, pageSize) && PM.AtEdge(offset, pos, pageSize)
      requires Wrote(was, offset, payload, pos)
      modifies this`data, this`present, this`dirty, this`gens, this`meta, inner`failures
      ensures Valid() && |View()| == devSize
      ensures Wrote(was, offset, payload, if r.Ok? then pos + n else pos)
      ensures inner.failures >= old(inner.failures) && (r.Ok? <==> inner.failures == old(inner.failures))
    {
      hide Valid, View, Splice, PM.OnePage, PM.AtEdge, PM.PageAt, PM.Added, Metadata.Pages, Bump, Bumped;
      ghost var now := Now();
      r := WriteChunk(offset + pos, n, chunk);
      Sizes();
      if r.Ok? { WroteMore(was, offset, payload, pos, n, now); }
    }

    /** Write `data` at `offset`; a failure leaves a prefix of the chunks written. */
    method Write(offset: nat, payload: seq<Byte>) returns (r: Result<()>, ghost done: nat)
      requires Valid()
      modifies this`data, this`present, this`dirty, this`gens, this`meta, inner`failures
      ensures Valid() && |View()| == |old(View())|
      ensures inner.failures >= old(inner.failures)
      ensures r.Ok? <==> Accepted(offset, |payload|, |old(View())|) && inner.failures == old(inner.failures)
      ensures r.Ok? ==> View() == if payload == [] then old(View()) else Splice(old(View()), offset, payload)
      ensures Wrote(old(Now()), offset, payload, done) && (r.Ok? ==> done == |payload|)
    {
      hide Valid, View, Splice, Wrote, PM.ChunkSize, PM.OnePage, PM.AtEdge, Aligned, Now;
      Sizes();
      ghost var was := Now();
      NowView();
      WroteNone(offset, payload);
      done := 0;
      if payload == [] { return Ok(()), 0; }
      if !Aligned(offset) || !Aligned(|payload|) { return Err, 0; }
      var len := |payload|;
      if offset + len > devSize { return Err, 0; }
      var pos := 0;
      PM.FirstEdge(offset, pageSize);
      while pos < len
        invariant Valid() && 0 <= pos <= len && offset + len <= devSize == |View()| && (pos < len ==> PM.AtEdge(offset, pos, pageSize))
        invariant Valid() && Wrote(was, offset, payload, pos) && inner.failures == old(inner.failures)
      {
        var at := offset + pos;
        var n := PM.ChunkSize(at, len - pos, pageSize);
        if n < len - pos { PM.ChunkEnds(offset, pos, n, pageSize); }
        r := WriteNext(was, offset, payload, pos, n, payload[pos..pos + n]);
        if r.Err? { return r, pos; }
        pos := pos + n;
      }
      WroteIsPartly(was, offset, payload, pos);
      return Ok(()), pos;
    }

    lemma NowView()
      requires Valid()
      ensures Now().view == View()
    {
    }

    /** Zero `[offset, offset + len)`. */
    method Clear(offset: nat, len: nat) returns (r: Result<()>, ghost done: nat)
      requires Valid()
      modifies this`data, this`present, this`dirty, this`gens, this`meta, inner`failures
      ensures Valid() && |View()| == |old(View())|
      ensures inner.failures >= old(inner.failures)
      ensures r.Ok? <==> Accepted(offset, len, |old(View())|) && inner.failures == old(inner.failures)
      ensures r.Ok? ==> View() == if len == 0 then old(View()) else Splice(old(View()), offset, Zeroed(len))
      ensures Wrote(old(Now()), offset, Zeroed(len), done) && (r.Ok? ==> done == len)
    {
      hide Valid, View, Splice, Wrote, PM.ChunkSize, PM.OnePage, PM.AtEdge, Aligned, Now, Zeroed;
      Sizes();
      ghost var was := Now();
      ghost var zs := Zeroed(len);
      NowView();
      WroteNone(offset, zs);
      done := 0;
      if len == 0 { return Ok(()), 0; }
      if !Aligned(offset) || !Aligned(len) { return Err, 0; }
      if offset + len > devSize { return Err, 0; }
      var pos := 0;
      PM.FirstEdge(offset, pageSize);
      while pos < len
        invariant Valid() && 0 <= pos <= len && offset + len <= devSize == |View()| && (pos < len ==> PM.AtEdge(offset, pos, pageSize))
        invariant Valid() && Wrote(was, offset, zs, pos) && inner.failures == old(inner.failures)
      {
        var at := offset + pos;
        var n := PM.ChunkSize(at, len - pos, pageSize);
        if n < len - pos { PM.ChunkEnds(offset, pos, n, pageSize); }
        ZeroSlice(len, pos, n);
        r := WriteNext(was, offset, zs, pos, n, Zeroed(n));
        if r.Err? { return r, pos; }
        pos := pos + n;
      }
      WroteIsPartly(was, offset, zs, pos);
      return Ok(()), pos;
    }

    /** A write moves the generation of every page it touches, so an upload begun before it can tell. */
    lemma WroteMovesGenerations(was: Before, offset: nat, payload: seq<Byte>, done: nat, q: nat)
      requires Valid() && Wrote(was, offset, payload, done) && InRange(was.gens) && q < |gens|
      ensures |was.gens| == |gens|
      ensures gens[q] != was.gens[q] <==> PM.Touches(q, pageSize, offset, done)
    {
      hide Valid, View, PM.Touches, PM.Added, Bump, Splice;
      BumpMoves(was.gens[q]);
    }

    /** Upload one dirty page and, if it was not written meanwhile, mark it clean in memory and in the file. */
    method FlushPage(p: nat) returns (r: Result<()>)
      requires Valid() && p < NumPages(devSize, pageSize)
      modifies this`dirty, this`meta, inner
      ensures Valid() && View() == old(View())
      ensures Pages(dirty) == if r.Ok? then old(Pages(dirty)) - {p} else old(Pages(dirty))
      ensures inner.failures >= old(inner.failures) && (r.Ok? <==> inner.failures == old(inner.failures))
    {
      hide Decode, DP.CleanIsInner, DP.Shown, NumPages, Splice;
      if !BitGet(dirty, p) { return Ok(()); }
      PageOnDevice(devSize, pageSize, p);
      PageInBitmap(NumPages(devSize, pageSize), p);
      var len := PM.PageLen(devSize, pageSize, p);
      var generation := gens[p];
      DP.UploadShows(inner.data, data, pageSize, Pages(present), Pages(dirty), p);
      r := inner.Write(p * pageSize, data[p * pageSize..p * pageSize + len]);
      if r.Err? { return; }
      if gens[p] != generation { return; }
      BitSetPages(dirty, p, false);
      BitUnchanged(present, p);
      dirty := BitSet(dirty, p, false);
      PersistMetaBit(p, present, old(dirty), true, false);
    }

    /** Upload every dirty page, going on past failures; the first failure is reported at the end. */
    method Flush() returns (r: Result<()>)
      requires Valid()
      modifies this`dirty, this`meta, inner
      ensures Valid() && View() == old(View())
      ensures Pages(dirty) <= old(Pages(dirty))
      ensures r.Ok? ==> Pages(dirty) == {} && inner.flushed == inner.data == View()
      ensures inner.failures >= old(inner.failures) && (r.Ok? <==> inner.failures == old(inner.failures))
      ensures |Pages(dirty)| <= inner.failures - old(inner.failures)
    {
      hide Valid, View, NumPages, Below, Metadata.Pages;
      var failed := false;
      Sizes();
      var num := NumPages(devSize, pageSize);
      var i := 0;
      NoneBelow(Pages(dirty));
      while i < num
        invariant Valid() && View() == old(View()) && 0 <= i <= num == NumPages(devSize, pageSize)
        invariant Pages(dirty) <= old(Pages(dirty))
        invariant inner.failures >= old(inner.failures) && (failed <==> inner.failures > old(inner.failures))
        invariant |Below(Pages(dirty), i)| <= inner.failures - old(inner.failures)
      {
        OneMoreBelow(Pages(dirty), i);
        var w := FlushPage(i);
        if w.Err? { failed := true; }
        i := i + 1;
      }
      NoneLeft();
      if failed { return Err; }
      Drained();
      r := inner.Sync();
    }

    lemma Drained()
      requires Valid() && Pages(dirty) == {}
      ensures inner.data == View()
    {
      DP.AllCleanShowsInner(inner.data, data, pageSize, Pages(present));
    }

    static lemma NoneBelow(dirty: set<nat>)
      ensures Below(dirty, 0) == {}
    {
    }

    static lemma OneMoreBelow(dirty: set<nat>, i: nat)
      ensures |Below(dirty, i + 1)| <= |Below(dirty, i)| + 1 && |Below(dirty - {i}, i + 1)| == |Below(dirty, i)|
    {
      assert Below(dirty, i + 1) == if i in dirty then Below(dirty, i) + {i} else Below(dirty, i);
      assert Below(dirty - {i}, i + 1) == Below(dirty, i);
    }

    /** Every dirty page is below the page count. */
    lemma NoneLeft()
      requires Valid()
      ensures Pages(dirty) == Below(Pages(dirty), NumPages(devSize, pageSize))
    {
      forall p | p in Pages(dirty) ensures p < NumPages(devSize, pageSize) { PageOnDevice(devSize, pageSize, p); }
    }

    /** Make every page of a range present, page by page. */
    method Prefetch(offset: nat, len: nat) returns (r: Result<()>)
      requires Valid()
      modifies this`data, this`present, this`meta, inner`failures
      ensures Valid() && View() == old(View())
      ensures inner.failures >= old(inner.failures)
      ensures r.Ok? <==> Accepted(offset, len, |View()|) && inner.failures == old(inner.failures)
      ensures r.Ok? ==> PM.Added(old(Pages(present)), Pages(present), pageSize, offset, len)
      ensures forall q: nat | q in Pages(present) && q !in old(Pages(present)) :: PM.Touches(q, pageSize, offset, len)
      ensures old(Pages(present)) <= Pages(present)
    {
      hide Valid, View, PM.PageLen, Pages, BitGet, PM.Touches, PM.Added, Covers, Reached;
      Sizes();
      ghost var before := Pages(present);
      NoneAdded(before, pageSize, offset);
      if len == 0 { return Ok(()); }
      if !Aligned(offset) || !Aligned(len) { return Err; }
      if offset + len > devSize { return Err; }
      var end := offset + len;
      var p := offset / pageSize;
      var pageOff := p * pageSize;
      ghost var first := p;
      RangeBegins(offset, len, pageSize, before);
      while pageOff < end
        invariant Valid() && View() == old(View()) && inner.failures == old(inner.failures)
        invariant pageOff == p * pageSize && Reached(first, p, pageSize, offset, len) && Covers(first, p, before, Pages(present))
        decreases end - pageOff
      {
        CoversRange(first, p, pageSize, offset, len, before, Pages(present));
        OnDevice(p);
        ghost var now := Pages(present);
        var punched: bool := *;
        var hole;
        r, hole := EnsurePage(p, punched);
        if r.Err? { return; }
        CoversMore(first, p, pageSize, offset, len, before, now);
        p, pageOff := p + 1, pageOff + pageSize;
      }
      CoversRange(first, p, pageSize, offset, len, before, Pages(present));
      r := Ok(());
    }

    lemma OnDevice(p: nat)
      requires Valid() && p * pageSize < devSize
      ensures PM.PageLen(devSize, pageSize, p) > 0
    {
    }

    /** Drop a clean page: punch its hole, then clear its present bit. */
    method EvictPage(p: nat)
      requires Valid() && p in Pages(present) && p !in Pages(dirty)
      modifies this`data, this`present, this`meta
      ensures Valid() && View() == old(View())
      ensures Pages(present) == old(Pages(present)) - {p}
      ensures var len := PM.PageLen(devSize, pageSize, p);
        p * pageSize + len <= |old(data)| && data == Splice(old(data), p * pageSize, Zeroed(len))
    {
      hide Decode, DP.CleanIsInner, DP.Shown, NumPages;
      var len := PM.PageLen(devSize, pageSize, p);
      PageOnDevice(devSize, pageSize, p);
      PageInBitmap(NumPages(devSize, pageSize), p);
      DP.SpliceOnlyPage(data, pageSize, p, 0, Zeroed(len));
      ghost var before := data;
      data := Splice(data, p * pageSize + 0, Zeroed(len));
      DP.EvictShows(inner.data, before, data, pageSize, Pages(present), Pages(dirty), p);
      SetPresent(p, false);
    }
  }

  /** A restart between operations, over the files as they were left, shows the same device, trusted or not. */
  method Restart(c: FileCacheBackend, trusted: bool) returns (d: FileCacheBackend)
    requires c.Valid()
    ensures d.Valid() && d.View() == c.View()
    ensures Pages(d.dirty) == Pages(c.dirty) && Pages(d.present) == if trusted then Pages(c.present) else Pages(c.dirty)
  {
    hide DP.CleanIsInner, DP.Shown, Metadata.Pages, BitGet, Kept;
    assert Resized(c.data, c.devSize) == c.data by { DataLength(c); }
    RestartKeeps(c, trusted);
    d := new FileCacheBackend(c.inner, c.pageSize, c.devSize, c.punchHoles, c.data, c.meta, trusted);
    DP.DropCleanShows(c.inner.data, c.data, c.pageSize, Pages(c.present), Pages(c.dirty));
  }

  lemma RestartKeeps(c: FileCacheBackend, trusted: bool)
    requires c.Valid()
    ensures Kept(Pages(c.present), Pages(c.dirty), NumPages(c.devSize, c.pageSize), trusted) ==
            if trusted then Pages(c.present) else Pages(c.dirty)
  {
    if !trusted { DroppedAll(c.devSize, c.pageSize, Pages(c.present), Pages(c.dirty)); }
  }

  lemma DataLength(c: FileCacheBackend)
    requires c.Valid()
    ensures |c.data| == c.devSize
  {
  }

  /** The pages kept at open. */
  function Kept(present: set<nat>, dirty: set<nat>, num: nat, trusted: bool): set<nat> {
    if trusted then present else present - Below(present - dirty, num)
  }

  /** What a previous run must have left: no dirty page is absent, no bit is past the end, clean pages kept are in step. */
  ghost predicate Usable(inner: seq<Byte>, ps: nat, dev: nat, dataFile: seq<Byte>, metaFile: seq<Byte>, trusted: bool)
    requires ps > 0
  {
    var found := Decode(metaFile, ps, dev, NumPages(dev, ps));
    found.Some? ==>
      && DP.Shape(inner, Resized(dataFile, dev), ps, Pages(found.value.0), Pages(found.value.1))
      && (trusted ==> DP.CleanIsInner(inner, Resized(dataFile, dev), ps, Pages(found.value.0), Pages(found.value.1)))
  }

  /** What is kept is in order if what was found is. */
  lemma KeptAll(inner: seq<Byte>, data: seq<Byte>, ps: nat, present: set<nat>, dirty: set<nat>, trusted: bool)
    requires ps > 0 && |data| == |inner|
    ensures DP.Shape(inner, data, ps, present, dirty) && (trusted ==> DP.CleanIsInner(inner, data, ps, present, dirty)) ==>
              var kept := Kept(present, dirty, NumPages(|inner|, ps), trusted);
              DP.Shape(inner, data, ps, kept, dirty) && DP.CleanIsInner(inner, data, ps, kept, dirty)
  {
    if !trusted && DP.Shape(inner, data, ps, present, dirty) { DroppedAll(|inner|, ps, present, dirty); }
  }

  /** Dropping the clean pages below the page count leaves exactly the dirty ones. */
  lemma DroppedAll(dev: nat, ps: nat, present: set<nat>, dirty: set<nat>)
    requires ps > 0 && dirty <= present
    requires forall p | p in present :: PM.PageLen(dev, ps, p) > 0
    ensures Kept(present, dirty, NumPages(dev, ps), false) == dirty
  {
    forall p | p in present ensures p < NumPages(dev, ps) { PageOnDevice(dev, ps, p); }
  }

  /** `now` is `before` and the pages from `first` up to `p`. */
  ghost predicate Covers(first: nat, p: nat, before: set<nat>, now: set<nat>) {
    forall q: nat :: q in now <==> q in before || first <= q < p
  }

  lemma NoneAdded(pages: set<nat>, ps: nat, offset: nat)
    ensures PM.Added(pages, pages, ps, offset, 0)
  {
  }

  /** How far a walk over the pages of a range has come. */
  predicate Reached(first: nat, p: nat, ps: nat, offset: nat, len: nat) {
    && ps > 0 && len > 0 && first * ps <= offset < first * ps + ps
    && first <= p && (first < p ==> (p - 1) * ps < offset + len)
  }

  lemma RangeBegins(offset: nat, len: nat, ps: nat, before: set<nat>)
    requires ps > 0 && len > 0
    ensures Reached(offset / ps, offset / ps, ps, offset, len) && Covers(offset / ps, offset / ps, before, before)
  {
    PM.PageRange(offset, offset / ps, ps);
  }

  lemma CoversMore(first: nat, p: nat, ps: nat, offset: nat, len: nat, before: set<nat>, now: set<nat>)
    requires Reached(first, p, ps, offset, len) && Covers(first, p, before, now) && p * ps < offset + len
    ensures Reached(first, p + 1, ps, offset, len) && Covers(first, p + 1, before, now + {p}) && (p + 1) * ps == p * ps + ps
  {
  }

  /** The pages covered are pages of the range, and once the range ends they are all of them. */
  lemma CoversRange(first: nat, p: nat, ps: nat, offset: nat, len: nat, before: set<nat>, now: set<nat>)
    requires Reached(first, p, ps, offset, len) && Covers(first, p, before, now)
    ensures before <= now && forall q: nat | q in now && q !in before :: PM.Touches(q, ps, offset, len)
    ensures offset + len <= p * ps ==> PM.Added(before, now, ps, offset, len)
  {
    hide PM.Touches;
    forall q: nat ensures first <= q < p ==> PM.Touches(q, ps, offset, len)
      ensures offset + len <= p * ps && PM.Touches(q, ps, offset, len) ==> first <= q < p
    {
      PageOfRange(first, p, ps, offset, len, q);
    }
  }

  lemma PageOfRange(first: nat, p: nat, ps: nat, offset: nat, len: nat, q: nat)
    requires Reached(first, p, ps, offset, len)
    ensures first <= q < p ==> PM.Touches(q, ps, offset, len)
    ensures offset + len <= p * ps && PM.Touches(q, ps, offset, len) ==> first <= q < p
  {
    if first <= q < p { PM.Scaled(q, p - 1, ps); PM.Scaled(first, q, ps); }
    if q < first { PM.Scaled(q + 1, first, ps); PM.Scaled(q, q, ps); }
    if p <= q { PM.Scaled(p, q, ps); }
  }

  /** Setting a bit that is set already changes nothing. */
  lemma BitUnchanged(bitmap: Bitmap, p: nat)
    requires p in Pages(bitmap)
    ensures p / 8 < |bitmap| && BitSet(bitmap, p, true) == bitmap
  {
  }

}
