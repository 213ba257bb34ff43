/**
  Cached pages in a flat data file over an inner store, as values: what device they show, and why storing,
  writing, flushing and evicting a page show the right one.
*/
module DiskPages {
  import opened Store
  import opened Device
  import opened PageMap

  /** Dirty pages are present, present pages are on the device, and the data file is as long as the device. */
  ghost predicate Shape(inner: seq<Byte>, data: seq<Byte>, ps: nat, present: set<nat>, dirty: set<nat>) {
    && ps > 0
    && |data| == |inner|
    && dirty <= present
    && (forall p | p in present :: PageLen(|inner|, ps, p) > 0)
  }

  /** Page `p` of the data file holds what the inner store holds. */
  ghost predicate SamePage(inner: seq<Byte>, data: seq<Byte>, ps: nat, p: nat) {
    |data| == |inner| ==> forall k: nat | p * ps <= k < p * ps + ps && k < |inner| :: data[k] == inner[k]
  }

  ghost predicate CleanIsInner(inner: seq<Byte>, data: seq<Byte>, ps: nat, present: set<nat>, dirty: set<nat>) {
    forall p | p in present && p !in dirty :: SamePage(inner, data, ps, p)
  }

  /** The device the cache shows. */
  ghost function Shown(inner: seq<Byte>, data: seq<Byte>, ps: nat, present: set<nat>): (v: seq<Byte>)
    requires ps > 0 && |data| == |inner|
    ensures |v| == |inner|
    ensures forall k | 0 <= k < |v| :: v[k] == if k / ps in present then data[k] else inner[k]
  {
    seq(|inner|, k requires 0 <= k < |inner| => if k / ps in present then data[k] else inner[k])
  }

  /** `data` agrees with `data'` on every page but `p`. */
  ghost predicate OnlyPage(data: seq<Byte>, data': seq<Byte>, ps: nat, p: nat) {
    |data| == |data'| && forall k | 0 <= k < |data| && !(p * ps <= k < p * ps + ps) :: data'[k] == data[k]
  }

  /** A change confined to page `p` keeps every other clean page in step with the inner store. */
  lemma OtherPagesStay(inner: seq<Byte>, data: seq<Byte>, inner': seq<Byte>, data': seq<Byte>, ps: nat, p: nat, q: nat)
    requires ps > 0 && q != p && |data| == |inner| && SamePage(inner, data, ps, q)
    requires OnlyPage(data, data', ps, p) && OnlyPage(inner, inner', ps, p)
    ensures SamePage(inner', data', ps, q)
  {
    forall k: nat | q * ps <= k < q * ps + ps && k < |inner'| ensures data'[k] == inner'[k] {
      PageRange(k, q, ps);
      PageRange(k, p, ps);
    }
  }

  lemma SpliceOnlyPage(data: seq<Byte>, ps: nat, p: nat, o: nat, chunk: seq<Byte>)
    requires o + |chunk| <= ps && p * ps + o + |chunk| <= |data|
    ensures OnlyPage(data, Splice(data, p * ps + o, chunk), ps, p)
  {
  }

  /** Storing a fetched page as clean shows the same device. */
  lemma StoreShows(inner: seq<Byte>, data: seq<Byte>, ps: nat, present: set<nat>, dirty: set<nat>, p: nat)
    requires Shape(inner, data, ps, present, dirty) && CleanIsInner(inner, data, ps, present, dirty)
    requires p !in present && PageLen(|inner|, ps, p) > 0
    ensures var len := PageLen(|inner|, ps, p);
            var data' := Splice(data, p * ps, inner[p * ps..p * ps + len]);
            && Shape(inner, data', ps, present + {p}, dirty)
            && CleanIsInner(inner, data', ps, present + {p}, dirty)
            && Shown(inner, data', ps, present + {p}) == Shown(inner, data, ps, present)
  {
    var len := PageLen(|inner|, ps, p);
    var page := inner[p * ps..p * ps + len];
    var data' := Splice(data, p * ps, page);
    assert p * ps + 0 == p * ps;
    SpliceOnlyPage(data, ps, p, 0, page);
    assert SamePage(inner, data', ps, p);
    forall q | q in present && q !in dirty ensures SamePage(inner, data', ps, q) {
      OtherPagesStay(inner, data, inner, data', ps, p, q);
    }
    forall k | 0 <= k < |inner|
      ensures Shown(inner, data', ps, present + {p})[k] == Shown(inner, data, ps, present)[k]
    {
      PageRange(k, p, ps);
    }
  }

  lemma DirtyAt(inner: seq<Byte>, data: seq<Byte>, ps: nat, present: set<nat>, p: nat, o: nat, chunk: seq<Byte>, k: nat)
    requires ps > 0 && |data| == |inner| && k < |inner| && o + |chunk| <= ps && p * ps + o + |chunk| <= |inner|
    requires p in present || (o == 0 && (|chunk| == ps || p * ps + |chunk| == |inner|))
    ensures var at := p * ps + o;
            (if k / ps in present + {p} then Splice(data, at, chunk)[k] else inner[k]) ==
            (if at <= k < at + |chunk| then chunk[k - at] else if k / ps in present then data[k] else inner[k])
  {
    PageRange(k, p, ps);
  }

  /** Writing part of a page, present already or overwritten whole, writes that part of the device. */
  lemma DirtyShows(inner: seq<Byte>, data: seq<Byte>, ps: nat, present: set<nat>, p: nat, o: nat, chunk: seq<Byte>)
    requires ps > 0 && |data| == |inner| && 0 < |chunk| && o + |chunk| <= PageLen(|inner|, ps, p)
    requires p in present || (o == 0 && |chunk| == PageLen(|inner|, ps, p))
    ensures p * ps + o + |chunk| <= |inner|
    ensures Shown(inner, Splice(data, p * ps + o, chunk), ps, present + {p}) ==
            Splice(Shown(inner, data, ps, present), p * ps + o, chunk)
  {
    hide PageLen;
    var at := p * ps + o;
    var u := Shown(inner, Splice(data, at, chunk), ps, present + {p});
    var v := Splice(Shown(inner, data, ps, present), at, chunk);
    forall k | 0 <= k < |inner| ensures u[k] == v[k] { DirtyAt(inner, data, ps, present, p, o, chunk, k); }
  }

  lemma DirtyInSync(inner: seq<Byte>, data: seq<Byte>, ps: nat, present: set<nat>, dirty: set<nat>, p: nat, o: nat, chunk: seq<Byte>)
    requires Shape(inner, data, ps, present, dirty) && CleanIsInner(inner, data, ps, present, dirty)
    requires 0 < o + |chunk| <= PageLen(|inner|, ps, p)
    ensures Shape(inner, Splice(data, p * ps + o, chunk), ps, present + {p}, dirty + {p})
    ensures CleanIsInner(inner, Splice(data, p * ps + o, chunk), ps, present + {p}, dirty + {p})
  {
    var data' := Splice(data, p * ps + o, chunk);
    SpliceOnlyPage(data, ps, p, o, chunk);
    forall q | q in present + {p} && q !in dirty + {p} ensures SamePage(inner, data', ps, q) {
      OtherPagesStay(inner, data, inner, data', ps, p, q);
    }
  }

  /** What a flush of page `p` writes into the inner store. */
  function Uploaded(inner: seq<Byte>, data: seq<Byte>, ps: nat, p: nat): (r: seq<Byte>)
    requires |data| == |inner| && PageLen(|inner|, ps, p) > 0
    ensures |r| == |inner|
  {
    var len := PageLen(|inner|, ps, p);
    Splice(inner, p * ps, data[p * ps..p * ps + len])
  }

  /** An upload, marked clean or not, changes no byte shown and puts page `p` in step. */
  lemma UploadShows(inner: seq<Byte>, data: seq<Byte>, ps: nat, present: set<nat>, dirty: set<nat>, p: nat)
    requires Shape(inner, data, ps, present, dirty) && CleanIsInner(inner, data, ps, present, dirty) && p in present
    ensures var up := Uploaded(inner, data, ps, p);
            && Shown(up, data, ps, present) == Shown(inner, data, ps, present)
            && CleanIsInner(up, data, ps, present, dirty)
            && CleanIsInner(up, data, ps, present, dirty - {p})
  {
    var len := PageLen(|inner|, ps, p);
    var up := Uploaded(inner, data, ps, p);
    assert p * ps + 0 == p * ps;
    SpliceOnlyPage(inner, ps, p, 0, data[p * ps..p * ps + len]);
    assert SamePage(up, data, ps, p);
    forall q | q in present && q !in dirty - {p} ensures SamePage(up, data, ps, q) {
      if q != p { OtherPagesStay(inner, data, up, data, ps, p, q); }
    }
    forall k | 0 <= k < |inner| ensures Shown(up, data, ps, present)[k] == Shown(inner, data, ps, present)[k] {
      PageRange(k, p, ps);
    }
  }

  /** Dropping a clean page, whatever becomes of its bytes in the file, shows the same device. */
  lemma EvictShows(inner: seq<Byte>, data: seq<Byte>, data': seq<Byte>, ps: nat, present: set<nat>, dirty: set<nat>, p: nat)
    requires Shape(inner, data, ps, present, dirty) && CleanIsInner(inner, data, ps, present, dirty)
    requires p in present && p !in dirty && OnlyPage(data, data', ps, p)
    ensures Shape(inner, data', ps, present - {p}, dirty)
    ensures CleanIsInner(inner, data', ps, present - {p}, dirty)
    ensures Shown(inner, data', ps, present - {p}) == Shown(inner, data, ps, present)
  {
    assert SamePage(inner, data, ps, p);
    assert OnlyPage(inner, inner, ps, p);
    forall q | q in present - {p} && q !in dirty ensures SamePage(inner, data', ps, q) {
      OtherPagesStay(inner, data, inner, data', ps, p, q);
    }
    forall k | 0 <= k < |inner|
      ensures Shown(inner, data', ps, present - {p})[k] == Shown(inner, data, ps, present)[k]
    {
      PageRange(k, p, ps);
    }
  }

  /** A chunk within one page is served whole from the file or whole from the inner store. */
  lemma ReadShows(inner: seq<Byte>, data: seq<Byte>, ps: nat, present: set<nat>, at: nat, n: nat)
    requires |data| == |inner| && at + n <= |inner| && OnePage(at, n, ps)
    ensures Shown(inner, data, ps, present)[at..at + n] ==
            if PageAt(at, ps) in present then data[at..at + n] else inner[at..at + n]
  {
    var v := Shown(inner, data, ps, present);
    var p := at / ps;
    PageRange(at, p, ps);
    var w := if p in present then data[at..at + n] else inner[at..at + n];
    forall i | 0 <= i < n ensures v[at..at + n][i] == w[i] { PageRange(at + i, p, ps); }
  }

  /** Dropping every clean page shows the same device. */
  lemma DropCleanShows(inner: seq<Byte>, data: seq<Byte>, ps: nat, present: set<nat>, dirty: set<nat>)
    requires Shape(inner, data, ps, present, dirty) && CleanIsInner(inner, data, ps, present, dirty)
    ensures Shown(inner, data, ps, dirty) == Shown(inner, data, ps, present)
  {
  }

  /** With no dirty page left, the inner store is the device. */
  lemma AllCleanShowsInner(inner: seq<Byte>, data: seq<Byte>, ps: nat, present: set<nat>)
    requires Shape(inner, data, ps, present, {}) && CleanIsInner(inner, data, ps, present, {})
    ensures Shown(inner, data, ps, present) == inner
  {
  }
}
