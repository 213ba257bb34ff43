/**
  The two classes are states of the step machines: an object at rest satisfies the machine's invariant and shows
  the same device.  So the runs proved about the machines start from whatever the classes leave.
*/
module Abstraction {
  import opened Common
  import opened Store
  import opened Device
  import PM = PageMap
  import DP = DiskPages
  import MD = Metadata
  import C = FileCacheBackend
  import BB = BufferedBackend
  import FC = FileCache
  import FCR = FileCacheRefinement
  import B = Buffer
  import BR = BufferRefinement
  import Stack

  /** The generations by page. */
  function Counted(gens: seq<nat>): map<nat, nat> { map q: nat | q < |gens| :: gens[q] }

  /** The disk cache at rest, as a machine state. */
  function CacheAtRest(inner: seq<Byte>, data: seq<Byte>, ps: nat, present: set<nat>, dirty: set<nat>, gens: seq<nat>): FC.State
    requires ps > 0
  {
    FC.State(Uniform(|inner|, ps), inner, data, present, dirty, Counted(gens), map[], map[], FC.Idle)
  }

  lemma CacheAtRestInv(inner: seq<Byte>, data: seq<Byte>, ps: nat, present: set<nat>, dirty: set<nat>, gens: seq<nat>)
    requires DP.Shape(inner, data, ps, present, dirty) && DP.CleanIsInner(inner, data, ps, present, dirty)
    ensures FCR.Inv(CacheAtRest(inner, data, ps, present, dirty, gens))
    ensures FC.View(CacheAtRest(inner, data, ps, present, dirty, gens)) == DP.Shown(inner, data, ps, present)
  {
    var s := CacheAtRest(inner, data, ps, present, dirty, gens);
    forall k: nat | k < |inner| && s.pg[k] in present && s.pg[k] !in dirty ensures data[k] == inner[k] {
      assert DP.SamePage(inner, data, ps, k / ps);
      PM.PageRange(k, k / ps, ps);
    }
    var u, v := FC.View(s), DP.Shown(inner, data, ps, present);
    forall k | 0 <= k < |inner| ensures u[k] == v[k] { assert u[k] == FC.At(s, k); }
  }

  /** An object of the disk cache class satisfies the machine's invariant and shows the same device. */
  lemma CacheObjectIsAState(c: C.FileCacheBackend)
    requires c.Valid()
    ensures var s := CacheAtRest(c.inner.data, c.data, c.pageSize, MD.Pages(c.present), MD.Pages(c.dirty), c.gens);
            FCR.Inv(s) && FC.View(s) == FC.Flat(s) == c.View()
  {
    CacheAtRestInv(c.inner.data, c.data, c.pageSize, MD.Pages(c.present), MD.Pages(c.dirty), c.gens);
  }

  /** A resident page, its bytes by device offset. */
  function PageAtRest(n: nat, ps: nat, p: nat, page: PM.Page): (r: B.Page)
    requires ps > 0 && |page.data| == ps
    ensures r.data.Keys == PageKeys(Uniform(n, ps), p)
    ensures forall k | k in r.data :: r.data[k] == page.data[k % ps]
  {
    B.Page(map k | k in PageKeys(Uniform(n, ps), p) :: page.data[k % ps], page.dirty, page.stamp)
  }

  /** The buffer at rest, as a machine state. */
  ghost function BufferAtRest(inner: seq<Byte>, ps: nat, pages: PM.Pages, counter: nat): B.State
    requires ps > 0 && PM.Shaped(|inner|, ps, pages)
  {
    B.State(Uniform(|inner|, ps), inner, map p | p in pages :: PageAtRest(|inner|, ps, p, pages[p]), counter, map[], map[])
  }

  lemma BufferAtRestInv(inner: seq<Byte>, ps: nat, pages: PM.Pages, counter: nat)
    requires ps > 0 && PM.Shaped(|inner|, ps, pages) && PM.CleanIsInner(inner, ps, pages)
    requires forall p | p in pages :: pages[p].stamp <= counter
    ensures BR.SerialInv(BufferAtRest(inner, ps, pages, counter))
    ensures B.View(BufferAtRest(inner, ps, pages, counter)) == PM.Shown(inner, ps, pages)
  {
    hide PM.PageLen;
    var s := BufferAtRest(inner, ps, pages, counter);
    var u, v := B.View(s), PM.Shown(inner, ps, pages);
    forall k | 0 <= k < |inner| ensures u[k] == v[k] { assert u[k] == B.At(s, k) && v[k] == PM.At(inner, ps, pages, k); }
    forall k: nat | k < |inner| && s.pg[k] in s.pages && !s.pages[s.pg[k]].dirty ensures B.At(s, k) == inner[k] {
      PM.CleanByte(inner, ps, pages, k);
    }
  }

  /** An object of the buffer class satisfies the machine's invariant and shows the same device. */
  lemma BufferObjectIsAState(b: BB.BufferedBackend)
    requires b.Valid()
    ensures var s := BufferAtRest(b.inner.data, b.pageSize, b.pages, b.stampCounter);
            BR.SerialInv(s) && B.View(s) == b.View()
  {
    BufferAtRestInv(b.inner.data, b.pageSize, b.pages, b.stampCounter);
  }

  /**
    A stack just mounted: an empty buffer over a disk cache at rest over the blob, with any two page sizes and any
    device size, the last pages short or not.
  */
  lemma MountedStack(blob: seq<Byte>, data: seq<Byte>, bufferPage: nat, cachePage: nat, present: set<nat>, dirty: set<nat>, gens: seq<nat>)
    requires bufferPage > 0
    requires DP.Shape(blob, data, cachePage, present, dirty) && DP.CleanIsInner(blob, data, cachePage, present, dirty)
    ensures var fc := CacheAtRest(blob, data, cachePage, present, dirty, gens);
            var s := Stack.State(BufferAtRest(FC.View(fc), bufferPage, map[], 0), fc, Stack.Nobody);
            Stack.Inv(s) && Stack.Flat(s) == DP.Shown(blob, data, cachePage, present)
  {
    hide BR.SerialInv, FCR.Inv, DP.CleanIsInner;
    CacheAtRestInv(blob, data, cachePage, present, dirty, gens);
    var v := FC.View(CacheAtRest(blob, data, cachePage, present, dirty, gens));
    BufferAtRestInv(v, bufferPage, map[], 0);
    PM.AllCleanShowsInner(v, bufferPage, map[]);
  }

  // ----- A chunk written into an object is the machine's write of that chunk -----

  /** The bytes of a chunk by device offset. */
  function ChunkImage(at: nat, payload: seq<Byte>): (img: Image)
    ensures forall k :: k in img <==> at <= k < at + |payload|
    ensures forall k | k in img :: img[k] == payload[k - at]
  {
    map k | k in Span(at, |payload|) :: payload[k - at]
  }

  function Span(at: nat, n: nat): (r: set<nat>)
    ensures forall k: nat :: k in r <==> at <= k < at + n
  {
    if n == 0 then {} else Span(at, n - 1) + {at + n - 1}
  }

  lemma ChunkOverlay(data: seq<Byte>, at: nat, payload: seq<Byte>)
    requires at + |payload| <= |data|
    ensures Overlay(data, Restrict(ChunkImage(at, payload), ChunkImage(at, payload).Keys)) == Splice(data, at, payload)
    ensures Overlay(data, ChunkImage(at, payload)) == Splice(data, at, payload)
  {
  }

  /** A chunk within page `p` is within its keys, and all of them if it covers the page. */
  lemma ChunkKeys(n: nat, ps: nat, p: nat, o: nat, payload: seq<Byte>)
    requires ps > 0 && 0 < |payload| && o + |payload| <= PM.PageLen(n, ps, p)
    ensures ChunkImage(p * ps + o, payload).Keys <= PageKeys(Uniform(n, ps), p)
    ensures o == 0 && |payload| == PM.PageLen(n, ps, p) ==> PageKeys(Uniform(n, ps), p) <= ChunkImage(p * ps + o, payload).Keys
  {
    forall k: nat | k < n ensures k in PageKeys(Uniform(n, ps), p) <==> p * ps <= k < p * ps + ps { PM.PageRange(k, p, ps); }
  }

  ghost predicate Steps(s: FC.State, l: FC.Label, t: FC.State) { FC.Enabled(s, l) && t == FC.Next(s, l) }

  /** The state while the chunk is being written. */
  function During(s: FC.State, img: Image, done: set<nat>, part: set<nat>, before: seq<Byte>): FC.State {
    s.(client := FC.Writer(img, done, part, before))
  }

  /** The state after the chunk is marked. */
  function AfterChunk(s: FC.State, data: seq<Byte>, p: nat): FC.State {
    s.(data := data, present := s.present + {p}, dirty := s.dirty + {p}, gens := s.gens[p := s.Gen(p) + 1])
  }

  /** The four machine steps that write one chunk. */
  ghost predicate WritesChunk(s: FC.State, img: Image, p: nat, data: seq<Byte>)
    requires s.Shape()
  {
    var v := FC.View(s);
    && Steps(s, FC.BeginWrite(img), During(s, img, {}, {}, v))
    && Steps(During(s, img, {}, {}, v), FC.PutData(p, img.Keys), During(s.(data := data), img, {}, img.Keys, v))
    && Steps(During(s.(data := data), img, {}, img.Keys, v), FC.MarkDirty(p), During(AfterChunk(s, data, p), img, img.Keys, {}, v))
    && Steps(During(AfterChunk(s, data, p), img, img.Keys, {}, v), FC.EndWrite, AfterChunk(s, data, p))
  }

  lemma BeginSteps(s: FC.State, img: Image)
    requires s.Shape() && s.client.Idle? && forall k | k in img :: k < |s.blob|
    ensures Steps(s, FC.BeginWrite(img), During(s, img, {}, {}, FC.View(s)))
  {
  }

  lemma PutSteps(s: FC.State, img: Image, p: nat, v: seq<Byte>)
    requires s.Shape() && img.Keys <= PageKeys(s.pg, p) && (p in s.present || PageKeys(s.pg, p) <= img.Keys)
    ensures Steps(During(s, img, {}, {}, v), FC.PutData(p, img.Keys),
                  During(s.(data := Overlay(s.data, Restrict(img, img.Keys))), img, {}, img.Keys, v))
  {
    assert {} + img.Keys == img.Keys && img.Keys - {} == img.Keys;
  }

  lemma MarkSteps(s: FC.State, img: Image, p: nat, data: seq<Byte>, v: seq<Byte>)
    requires s.Shape() && |data| == |s.data| && img.Keys <= PageKeys(s.pg, p) && img.Keys != {}
    ensures Steps(During(s.(data := data), img, {}, img.Keys, v), FC.MarkDirty(p), During(AfterChunk(s, data, p), img, img.Keys, {}, v))
  {
    assert {} + img.Keys == img.Keys && img.Keys * PageKeys(s.pg, p) == img.Keys;
  }

  lemma EndSteps(s: FC.State, img: Image, v: seq<Byte>)
    requires s.Shape() && s.client.Idle?
    ensures Steps(During(s, img, img.Keys, {}, v), FC.EndWrite, s)
  {
  }

  lemma ChunkSteps(s: FC.State, img: Image, p: nat)
    requires s.Shape() && s.client.Idle? && img.Keys <= PageKeys(s.pg, p) && img.Keys != {}
    requires p in s.present || PageKeys(s.pg, p) <= img.Keys
    ensures WritesChunk(s, img, p, Overlay(s.data, Restrict(img, img.Keys)))
  {
    hide Steps, During, FC.View;
    var data, v := Overlay(s.data, Restrict(img, img.Keys)), FC.View(s);
    BeginSteps(s, img);
    PutSteps(s, img, p, v);
    MarkSteps(s, img, p, data, v);
    EndSteps(AfterChunk(s, data, p), img, v);
  }

  /** What an upload begun earlier finds: unless 2^64 writes went by, the generation of a page written since differs. */
  lemma EarlierFlightDiffers(s: FC.State, data: seq<Byte>, p: nat, f: FC.Flight)
    requires f.page == p && f.gen <= s.Gen(p) && s.Gen(p) + 1 < f.gen + GENERATIONS
    ensures !FC.SameGeneration(AfterChunk(s, data, p), f)
  {
    if FC.SameGeneration(AfterChunk(s, data, p), f) { FCR.WrapFree(s.Gen(p) + 1, f.gen); }
  }

  /** The chunk write on values: the file, the bits and the generation of the page. */
  lemma ChunkIsWrite(inner: seq<Byte>, data: seq<Byte>, ps: nat, present: set<nat>, dirty: set<nat>, gens: seq<nat>,
                     p: nat, o: nat, payload: seq<Byte>)
    requires ps > 0 && |data| == |inner| && p < |gens| && 0 < |payload| && o + |payload| <= PM.PageLen(|inner|, ps, p)
    requires p in present || (o == 0 && |payload| == PM.PageLen(|inner|, ps, p))
    requires p * ps + o + |payload| <= |data|
    ensures var s := CacheAtRest(inner, data, ps, present, dirty, gens);
      var next := Splice(data, p * ps + o, payload);
      && WritesChunk(s, ChunkImage(p * ps + o, payload), p, next)
      && CacheAtRest(inner, next, ps, present + {p}, dirty + {p}, gens[p := C.Bump(gens[p])]) ==
         AfterChunk(s, next, p).(gens := s.gens[p := (s.Gen(p) + 1) % GENERATIONS])
  {
    hide PM.PageLen, WritesChunk, Splice, CacheAtRest, AfterChunk, ChunkImage, C.Bump;
    var s := CacheAtRest(inner, data, ps, present, dirty, gens);
    var at := p * ps + o;
    RestShape(inner, data, ps, present, dirty, gens);
    ChunkKeys(|inner|, ps, p, o, payload);
    assert at in ChunkImage(at, payload);
    ChunkSteps(s, ChunkImage(at, payload), p);
    ChunkOverlay(data, at, payload);
    RestAfter(inner, data, ps, present, dirty, gens, p, Splice(data, at, payload));
  }

  lemma RestShape(inner: seq<Byte>, data: seq<Byte>, ps: nat, present: set<nat>, dirty: set<nat>, gens: seq<nat>)
    requires ps > 0 && |data| == |inner|
    ensures var s := CacheAtRest(inner, data, ps, present, dirty, gens);
      s.Shape() && s.client.Idle? && s.pg == Uniform(|inner|, ps) && s.data == data && s.present == present
  {
  }

  lemma RestAfter(inner: seq<Byte>, data: seq<Byte>, ps: nat, present: set<nat>, dirty: set<nat>, gens: seq<nat>, p: nat, next: seq<Byte>)
    requires ps > 0 && p < |gens|
    ensures var s := CacheAtRest(inner, data, ps, present, dirty, gens);
      CacheAtRest(inner, next, ps, present + {p}, dirty + {p}, gens[p := C.Bump(gens[p])]) ==
      AfterChunk(s, next, p).(gens := s.gens[p := (s.Gen(p) + 1) % GENERATIONS])
  {
    CountedNext(gens, p, C.Bump(gens[p]));
  }

  /** An object of the disk cache class, as a machine state. */
  ghost function AtRest(c: C.FileCacheBackend): (s: FC.State)
    requires c.Valid()
    ensures s.Shape()
    reads c, c.inner`data
  {
    CacheAtRest(c.inner.data, c.data, c.pageSize, MD.Pages(c.present), MD.Pages(c.dirty), c.gens)
  }

  /**
    `DirtyPageRegion` is the machine's write of the chunk: begin, put, mark, end.  The object's counters are those of the
    machine as far as `u64` can tell.
  */
  method ChunkAsMachine(c: C.FileCacheBackend, p: nat, o: nat, payload: seq<Byte>, ghost at: nat)
    requires c.Valid() && 0 < |payload| && o + |payload| <= PM.PageLen(c.devSize, c.pageSize, p)
    requires p in MD.Pages(c.present) || (o == 0 && |payload| == PM.PageLen(c.devSize, c.pageSize, p))
    requires at == p * c.pageSize + o && at + |payload| <= c.devSize
    modifies c`data, c`present, c`dirty, c`gens, c`meta
    ensures c.Valid()
    ensures WritesChunk(old(AtRest(c)), ChunkImage(at, payload), p, c.data)
    ensures AtRest(c) == AfterChunk(old(AtRest(c)), c.data, p).(gens := old(AtRest(c)).gens[p := (old(AtRest(c)).Gen(p) + 1) % GENERATIONS])
  {
    hide C.FileCacheBackend.Valid, MD.Pages, PM.PageLen, WritesChunk, Splice, CacheAtRest, AfterChunk, C.Bump;
    Rests(c);
    ghost var data, present, dirty, gens := c.data, MD.Pages(c.present), MD.Pages(c.dirty), c.gens;
    c.DirtyPageRegion(p, o, payload, at);
    ChunkIsWrite(c.inner.data, data, c.pageSize, present, dirty, gens, p, o, payload);
  }

  lemma Rests(c: C.FileCacheBackend)
    requires c.Valid()
    ensures c.pageSize > 0 && |c.data| == |c.inner.data| == c.devSize
  {
  }

  lemma CountedNext(gens: seq<nat>, p: nat, g: nat)
    requires p < |gens|
    ensures Counted(gens[p := g]) == Counted(gens)[p := g]
  {
  }
}
