/** The metadata file as `FileCacheBackend` handles it: written whole, loaded or re-initialised, and invalidated. */
module MetaFile {
  import opened Common
  import opened Store
  import opened Device
  import opened Metadata

  /** The file on disk holds exactly these bitmaps for this geometry. */
  predicate OnDisk(meta: seq<Byte>, ps: nat, dev: nat, num: nat, present: Bitmap, dirty: Bitmap) {
    && Decode(meta, ps, dev, num) == Some((present, dirty))
    && |present| == |dirty| == BitmapBytes(num)
  }

  lemma OnDiskLength(meta: seq<Byte>, ps: nat, dev: nat, num: nat, present: Bitmap, dirty: Bitmap)
    requires OnDisk(meta, ps, dev, num, present, dirty)
    ensures |meta| >= HEADER_SIZE + 2 * BitmapBytes(num)
  {
  }

  /** The header, field by field at its offsets, is the header of the format. */
  lemma HeaderPlaced(ps: nat, dev: nat, num: nat)
    ensures var a := Splice(Zeroed(HEADER_SIZE), 0, MAGIC);
            var b := Splice(a, 8, ToLE(VERSION, 4));
            var c := Splice(b, 16, ToLE(ps, 8));
            var d := Splice(c, 24, ToLE(dev, 8));
            Splice(d, 32, ToLE(num, 8)) == Header(ps, dev, num)
  {
    hide ToLE;
  }

  method WriteFullMeta(ps: nat, dev: nat, num: nat, present: Bitmap, dirty: Bitmap) returns (meta: seq<Byte>)
    requires IsU64(ps) && IsU64(dev) && |present| == |dirty| == BitmapBytes(num)
    ensures meta == MetaBytes(ps, dev, num, present, dirty) && OnDisk(meta, ps, dev, num, present, dirty)
  {
    var header := Zeroed(HEADER_SIZE);
    header := Splice(header, 0, MAGIC);
    header := Splice(header, 8, ToLE(VERSION, 4));
    header := Splice(header, 16, ToLE(ps, 8));
    header := Splice(header, 24, ToLE(dev, 8));
    header := Splice(header, 32, ToLE(num, 8));
    HeaderPlaced(ps, dev, num);
    MetaRoundTrip(ps, dev, num, present, dirty, ps, dev, num);
    meta := header + present + dirty;
  }

  /** The pages below `n`. */
  function Below(s: set<nat>, n: nat): set<nat> { set p | p in s && p < n }

  lemma BelowNext(s: set<nat>, n: nat)
    ensures Below(s, n + 1) == if n in s then Below(s, n) + {n} else Below(s, n)
    ensures |Below(s, n + 1)| == |Below(s, n)| + if n in s then 1 else 0
    ensures n !in Below(s, n)
  {
  }

  /**
    The bitmaps of a metadata file that fits the geometry, as they are; of any other file, all clear, and the file
    is rewritten to say so.  The count is of the dirty pages to be flushed again.
  */
  method LoadOrInitMeta(meta: seq<Byte>, ps: nat, dev: nat, num: nat)
    returns (meta': seq<Byte>, present: Bitmap, dirty: Bitmap, dirtyCount: nat)
    requires IsU64(ps) && IsU64(dev)
    ensures OnDisk(meta', ps, dev, num, present, dirty)
    ensures Decode(meta, ps, dev, num).Some? ==> meta' == meta
    ensures Decode(meta, ps, dev, num).None? ==> Pages(present) == {} && Pages(dirty) == {}
    ensures dirtyCount == |Below(Pages(dirty), num)|
  {
    hide FromLE, Pages, BitGet, MetaBytes;
    var len := BitmapBytes(num);
    var whole := |meta| >= HEADER_SIZE + 2 * len;
    if !whole || meta[0..8] != MAGIC || FromLE(meta[8..12]) != VERSION || FromLE(meta[16..24]) != ps || FromLE(meta[24..32]) != dev {
      present, dirty := Zeroed(len), Zeroed(len);
      ZerosAreClear(len);
      assert Below({}, num) == {};
      meta' := WriteFullMeta(ps, dev, num, present, dirty);
      return meta', present, dirty, 0;
    }
    present := meta[HEADER_SIZE..HEADER_SIZE + len];
    dirty := meta[HEADER_SIZE + len..HEADER_SIZE + 2 * len];
    meta' := meta;
    dirtyCount := CountPages(dirty, num);
  }

  /** How many of the first `num` pages have their bit set. */
  method CountPages(bitmap: Bitmap, num: nat) returns (count: nat)
    ensures count == |Below(Pages(bitmap), num)|
  {
    hide BitGet, Below;
    count := 0;
    var i := 0;
    BelowNone(Pages(bitmap));
    while i < num
      invariant 0 <= i <= num && count == |Below(Pages(bitmap), i)|
    {
      BelowNext(Pages(bitmap), i);
      if BitGet(bitmap, i) { count := count + 1; }
      i := i + 1;
    }
  }

  lemma BelowNone(s: set<nat>)
    ensures Below(s, 0) == {}
  {
  }

  lemma ZerosAreClear(len: nat)
    ensures Pages(Zeroed(len)) == {}
  {
  }

  /** The present pages of a bitmap that are clean. */
  function CleanPages(present: Bitmap, dirty: Bitmap): set<nat> { Pages(present) - Pages(dirty) }

  /** Rewriting the present bitmap in the file. */
  function WithPresent(meta: seq<Byte>, num: nat, present: Bitmap): seq<Byte>
    requires |meta| >= HEADER_SIZE + 2 * BitmapBytes(num) && |present| == BitmapBytes(num)
  {
    Splice(meta, HEADER_SIZE, present)
  }

  lemma WithPresentOnDisk(meta: seq<Byte>, ps: nat, dev: nat, num: nat, present: Bitmap, dirty: Bitmap, present': Bitmap)
    requires OnDisk(meta, ps, dev, num, present, dirty) && |present'| == BitmapBytes(num)
    ensures OnDisk(WithPresent(meta, num, present'), ps, dev, num, present', dirty)
  {
    var len := BitmapBytes(num);
    var f := WithPresent(meta, num, present');
    assert f[0..8] == meta[0..8] && f[8..12] == meta[8..12] && f[16..24] == meta[16..24] && f[24..32] == meta[24..32];
    assert f[HEADER_SIZE..HEADER_SIZE + len] == present';
    assert f[HEADER_SIZE + len..HEADER_SIZE + 2 * len] == meta[HEADER_SIZE + len..HEADER_SIZE + 2 * len];
  }

  /** Clear the present bit of every clean page; no dirty page is touched, in memory or in the file. */
  method DropCleanPages(meta: seq<Byte>, ps: nat, dev: nat, num: nat, present: Bitmap, dirty: Bitmap)
    returns (meta': seq<Byte>, present': Bitmap, dropped: nat)
    requires OnDisk(meta, ps, dev, num, present, dirty)
    ensures OnDisk(meta', ps, dev, num, present', dirty)
    ensures Pages(present') == Pages(present) - Below(CleanPages(present, dirty), num)
    ensures dropped == |Below(CleanPages(present, dirty), num)|
  {
    hide Decode, BitGet, Pages, Below;
    present', dropped := ClearClean(present, dirty, num);
    meta' := meta;
    if dropped > 0 {
      OnDiskLength(meta, ps, dev, num, present, dirty);
      WithPresentOnDisk(meta, ps, dev, num, present, dirty, present');
      meta' := WithPresent(meta, num, present');
    }
  }

  /** The present bitmap with the bits of the clean pages cleared. */
  method ClearClean(present: Bitmap, dirty: Bitmap, num: nat) returns (present': Bitmap, dropped: nat)
    requires |present| == |dirty| == BitmapBytes(num)
    ensures |present'| == |present|
    ensures Pages(present') == Pages(present) - Below(CleanPages(present, dirty), num)
    ensures dropped == |Below(CleanPages(present, dirty), num)|
    ensures dropped == 0 ==> present' == present
  {
    hide BitGet, BitSet, Pages, Below;
    dropped := 0;
    present' := present;
    ghost var clean := CleanPages(present, dirty);
    BelowNone(clean);
    var i := 0;
    while i < num
      invariant 0 <= i <= num && |present'| == |present|
      invariant Pages(present') == Pages(present) - Below(clean, i)
      invariant dropped == |Below(clean, i)|
      invariant dropped == 0 ==> present' == present
    {
      BelowNext(clean, i);
      if BitGet(present', i) && !BitGet(dirty, i) {
        BitSetPages(present', i, false);
        present' := BitSet(present', i, false);
        dropped := dropped + 1;
      }
      i := i + 1;
    }
  }

  /** Setting a page's bits in memory and persisting its two bytes brings the file up to date. */
  lemma PersistKeepsOnDisk(meta: seq<Byte>, ps: nat, dev: nat, num: nat, present: Bitmap, dirty: Bitmap, page: nat, p: bool, d: bool)
    requires OnDisk(meta, ps, dev, num, present, dirty) && page < num
    ensures OnDisk(Persisted(meta, num, BitSet(present, page, p), BitSet(dirty, page, d), page), ps, dev, num,
                   BitSet(present, page, p), BitSet(dirty, page, d))
  {
  }

  /** So does persisting only the present byte when only the present bit has changed. */
  lemma PersistPresentOnDisk(meta: seq<Byte>, ps: nat, dev: nat, num: nat, present: Bitmap, dirty: Bitmap, page: nat, p: bool)
    requires OnDisk(meta, ps, dev, num, present, dirty) && page < num
    ensures |meta| > HEADER_SIZE + page / 8
    ensures OnDisk(meta[HEADER_SIZE + page / 8 := BitSet(present, page, p)[page / 8]], ps, dev, num, BitSet(present, page, p), dirty)
  {
  }
}
