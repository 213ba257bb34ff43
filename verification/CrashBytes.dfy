/**
  The crash theorems down to the bytes of the metadata file: whatever the run and wherever the crash, decoding the
  file gives exactly the bitmaps that the theorems reopen the cache with.
*/
module CrashBytes {
  import opened Common
  import opened Store
  import opened Device
  import opened Metadata
  import opened MetaFile
  import opened FileCache
  import opened CacheDisk
  import opened CrashRecovery

  /** The bitmap of `len` bytes with the bits of the pages of `s` below `n` set, as setting them one by one gives it. */
  function Packed(s: set<nat>, n: nat, len: nat): (r: Bitmap)
    requires n <= 8 * len
    ensures |r| == len
  {
    if n == 0 then Zeroed(len)
    else if n - 1 in s then BitSet(Packed(s, n - 1, len), n - 1, true)
    else Packed(s, n - 1, len)
  }

  lemma {:induction false} PackedPages(s: set<nat>, n: nat, len: nat)
    requires n <= 8 * len
    ensures Pages(Packed(s, n, len)) == Below(s, n)
  {
    hide BitSet, BitGet;
    if n == 0 {
      ZerosAreClear(len);
    } else {
      PackedPages(s, n - 1, len);
      BelowNext(s, n - 1);
      if n - 1 in s { BitSetPages(Packed(s, n - 1, len), n - 1, true); }
    }
  }

  ghost predicate AllBelow(s: set<nat>, num: nat) { forall q | q in s :: q < num }

  lemma BelowAll(s: set<nat>, num: nat)
    requires AllBelow(s, num)
    ensures Below(s, num) == s
  {
  }

  /** Every page the cache or its files speak of is below `num`. */
  ghost predicate Within(w: World, num: nat) {
    && w.fc.Shape()
    && (forall k | 0 <= k < |w.fc.pg| :: w.fc.pg[k] < num)
    && AllBelow(w.fc.present, num) && AllBelow(w.fc.dirty, num) && AllBelow(w.disk.present, num) && AllBelow(w.disk.dirty, num)
    && (forall id | id in w.fc.fetches :: w.fc.fetches[id].page < num)
    && (forall id | id in w.fc.flights :: w.fc.flights[id].page < num)
    && (!w.disk.pending.Nothing? ==> w.disk.pending.page < num)
  }

  lemma CacheWithin(w: World, l: Label, num: nat)
    requires CanDo(w, Cache(l)) && Within(w, num)
    ensures Within(Do(w, Cache(l)), num)
  {
    if l.MarkDirty? {
      var j :| j in w.fc.client.part;
      assert w.fc.pg[j] == l.page;
      assert Do(w, Cache(l)).fc == Mark(w.fc, l.page);
    } else if l.FetchStart? {
      assert l.page in w.fc.pg;
    }
  }

  lemma FileWithin(w: World, e: Event, num: nat)
    requires CanDo(w, e) && !e.Cache? && Within(w, num)
    ensures Within(Do(w, e), num)
  {
  }

  lemma {:induction false} HistoryWithin(h: History, num: nat)
    requires h.Valid() && Within(h.Origin(), num)
    ensures Within(h.Now(), num)
  {
    hide Within, CanDo, Do;
    if h.After? {
      HistoryWithin(h.prev, num);
      if h.e.Cache? { CacheWithin(h.prev.Now(), h.e.l, num); } else { FileWithin(h.prev.Now(), h.e, num); }
    }
  }

  /** The metadata file after each event: a bit write copies one byte of the bitmap in memory. */
  ghost function FileAfter(h: History, ps: nat, dev: nat, num: nat): seq<Byte>
    requires h.Valid() && Within(h.Origin(), num)
    decreases h
  {
    var len := BitmapBytes(num);
    match h
    case Boot(w) => MetaBytes(ps, dev, num, Packed(w.disk.present, num, len), Packed(w.disk.dirty, num, len))
    case After(b, e) =>
      var f, w := FileAfter(b, ps, dev, num), b.Now();
      HistoryWithin(b, num);
      if e == WritePresent(true) then Put(f, HEADER_SIZE + w.disk.pending.page / 8, Packed(w.fc.present, num, len), w.disk.pending.page / 8)
      else if e.WriteDirty? then Put(f, HEADER_SIZE + len + w.disk.pending.page / 8, Packed(w.fc.dirty, num, len), w.disk.pending.page / 8)
      else f
  }

  /** One byte of a bitmap written into the file. */
  function Put(f: seq<Byte>, at: nat, bitmap: Bitmap, b: nat): seq<Byte> {
    if at < |f| && b < |bitmap| then f[at := bitmap[b]] else f
  }

  /** The file decodes to exactly these sets of pages. */
  ghost predicate Holds(f: seq<Byte>, ps: nat, dev: nat, num: nat, present: set<nat>, dirty: set<nat>) {
    exists p, d :: OnDisk(f, ps, dev, num, p, d) && Pages(p) == present && Pages(d) == dirty
  }

  lemma BootHolds(w: World, ps: nat, dev: nat, num: nat)
    requires IsU64(ps) && IsU64(dev) && Within(w, num)
    ensures var len := BitmapBytes(num);
      Holds(MetaBytes(ps, dev, num, Packed(w.disk.present, num, len), Packed(w.disk.dirty, num, len)), ps, dev, num, w.disk.present, w.disk.dirty)
  {
    hide Decode, MetaBytes, Packed, Pages;
    var len := BitmapBytes(num);
    var p, d := Packed(w.disk.present, num, len), Packed(w.disk.dirty, num, len);
    MetaRoundTrip(ps, dev, num, p, d, ps, dev, num);
    PackedPages(w.disk.present, num, len);
    PackedPages(w.disk.dirty, num, len);
    BelowAll(w.disk.present, num);
    BelowAll(w.disk.dirty, num);
    assert OnDisk(MetaBytes(ps, dev, num, p, d), ps, dev, num, p, d);
  }

  lemma PresentByteHolds(f: seq<Byte>, ps: nat, dev: nat, num: nat, p: Bitmap, d: Bitmap, m: Bitmap, b: nat)
    requires OnDisk(f, ps, dev, num, p, d) && |m| == BitmapBytes(num) && b < |m|
    ensures OnDisk(Put(f, HEADER_SIZE + b, m, b), ps, dev, num, p[b := m[b]], d)
    ensures Pages(p[b := m[b]]) == ByteOf(Pages(p), Pages(m), b)
  {
    hide Pages, FromLE;
    OnDiskLength(f, ps, dev, num, p, d);
    WithPresentOnDisk(f, ps, dev, num, p, d, p[b := m[b]]);
    assert Put(f, HEADER_SIZE + b, m, b) == WithPresent(f, num, p[b := m[b]]) by {
      assert f[HEADER_SIZE..HEADER_SIZE + |p|] == p;
      assert forall k | 0 <= k < |p| :: f[HEADER_SIZE + k] == p[k];
    }
    ByteWritePages(p, m, b);
  }

  lemma DirtyByteHolds(f: seq<Byte>, ps: nat, dev: nat, num: nat, p: Bitmap, d: Bitmap, m: Bitmap, b: nat)
    requires OnDisk(f, ps, dev, num, p, d) && |m| == BitmapBytes(num) && b < |m|
    ensures OnDisk(Put(f, HEADER_SIZE + BitmapBytes(num) + b, m, b), ps, dev, num, p, d[b := m[b]])
    ensures Pages(d[b := m[b]]) == ByteOf(Pages(d), Pages(m), b)
  {
    hide Pages, FromLE;
    var len := BitmapBytes(num);
    var g := Put(f, HEADER_SIZE + len + b, m, b);
    assert g[0..8] == f[0..8] && g[8..12] == f[8..12] && g[16..24] == f[16..24] && g[24..32] == f[24..32];
    assert g[HEADER_SIZE..HEADER_SIZE + len] == f[HEADER_SIZE..HEADER_SIZE + len];
    assert g[HEADER_SIZE + len..HEADER_SIZE + 2 * len] == f[HEADER_SIZE + len..HEADER_SIZE + 2 * len][b := m[b]];
    ByteWritePages(d, m, b);
  }

  /** What a bit write makes of the sets. */
  lemma WriteHolds(f: seq<Byte>, ps: nat, dev: nat, num: nat, w: World, e: Event)
    requires CanDo(w, e) && Within(w, num) && Holds(f, ps, dev, num, w.disk.present, w.disk.dirty)
    requires e == WritePresent(true) || e.WriteDirty?
    ensures var len, b := BitmapBytes(num), w.disk.pending.page / 8;
      var g := if e.WriteDirty? then Put(f, HEADER_SIZE + len + b, Packed(w.fc.dirty, num, len), b)
               else Put(f, HEADER_SIZE + b, Packed(w.fc.present, num, len), b);
      Holds(g, ps, dev, num, Do(w, e).disk.present, Do(w, e).disk.dirty)
  {
    hide Decode, Pages, Packed, Put;
    var len, b := BitmapBytes(num), w.disk.pending.page / 8;
    var p, d :| OnDisk(f, ps, dev, num, p, d) && Pages(p) == w.disk.present && Pages(d) == w.disk.dirty;
    if e.WriteDirty? {
      var m := Packed(w.fc.dirty, num, len);
      PackedPages(w.fc.dirty, num, len);
      BelowAll(w.fc.dirty, num);
      DirtyByteHolds(f, ps, dev, num, p, d, m, b);
      assert Pages(d[b := m[b]]) == Do(w, e).disk.dirty;
    } else {
      var m := Packed(w.fc.present, num, len);
      PackedPages(w.fc.present, num, len);
      BelowAll(w.fc.present, num);
      PresentByteHolds(f, ps, dev, num, p, d, m, b);
      assert Pages(p[b := m[b]]) == Do(w, e).disk.present && Pages(d) == Do(w, e).disk.dirty;
    }
  }

  /** No other event touches the metadata file. */
  lemma OtherHolds(w: World, e: Event)
    requires CanDo(w, e) && e != WritePresent(true) && !e.WriteDirty?
    ensures Do(w, e).disk.present == w.disk.present && Do(w, e).disk.dirty == w.disk.dirty
  {
  }

  lemma {:induction false} FileHolds(h: History, ps: nat, dev: nat, num: nat)
    requires h.Valid() && IsU64(ps) && IsU64(dev) && Within(h.Origin(), num)
    ensures Holds(FileAfter(h, ps, dev, num), ps, dev, num, h.Now().disk.present, h.Now().disk.dirty)
  {
    hide Holds, Within, CanDo, Do, Packed, Put, MetaBytes;
    match h
    case Boot(w) => BootHolds(w, ps, dev, num);
    case After(b, e) =>
      FileHolds(b, ps, dev, num);
      HistoryWithin(b, num);
      if e == WritePresent(true) || e.WriteDirty? {
        WriteHolds(FileAfter(b, ps, dev, num), ps, dev, num, b.Now(), e);
      } else {
        OtherHolds(b.Now(), e);
      }
  }

  /**
    A crash at any file operation of any run: the metadata file decodes, and the cache reopened from the decoded
    bitmaps is the one the crash theorems speak of.
  */
  lemma CrashReadsTheFile(h: History, ps: nat, dev: nat, num: nat)
    requires h.Valid() && IsU64(ps) && IsU64(dev) && Within(h.Origin(), num)
    ensures var found := Decode(FileAfter(h, ps, dev, num), ps, dev, num);
      && found.Some?
      && Reopen(h.Now().fc, h.Now().fc.data, Pages(found.value.0), Pages(found.value.1)) == AfterCrash(h.Now())
  {
    hide FileAfter, Within, Decode, Pages;
    FileHolds(h, ps, dev, num);
  }
}
