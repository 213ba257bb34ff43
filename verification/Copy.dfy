/**
  Cloning a template blob: the overlap test on the source's data ranges, the streamed copy, and the server-side
  copy whose chunks complete in any order.
*/
module Copy {
  import opened Common
  import opened Store
  import opened Device
  import PM = PageMap

  /** The chunk size: a configured size cut to a multiple of 512 and clamped, or the largest request. */
  function CopyChunkBytes(configured: Option<nat>): (n: nat)
    ensures Aligned(n) && SECTOR <= n <= MAX_PAGE_REQUEST_BYTES
    ensures configured.Some? && Aligned(configured.value) && SECTOR <= configured.value <= MAX_PAGE_REQUEST_BYTES ==>
              n == configured.value
    ensures configured.None? ==> n == MAX_PAGE_REQUEST_BYTES
    ensures configured.Some? && SECTOR <= configured.value <= MAX_PAGE_REQUEST_BYTES ==> n <= configured.value < n + SECTOR
    ensures configured.Some? && configured.value < SECTOR ==> n == SECTOR
    ensures configured.Some? && configured.value > MAX_PAGE_REQUEST_BYTES ==> n == MAX_PAGE_REQUEST_BYTES
  {
    if configured.None? then MAX_PAGE_REQUEST_BYTES
    else
      var cut := configured.value / 512 * 512;
      if cut < 512 then 512 else if cut > MAX_PAGE_REQUEST_BYTES then MAX_PAGE_REQUEST_BYTES else cut
  }

  // ----- Data ranges -----

  datatype Range = Range(start: nat, len: nat)

  /** Byte `k` lies in range `r`. */
  predicate In(k: nat, r: Range) { r.start <= k < r.start + r.len }

  /** The naive test: some range shares a byte with `[offset, offset + len)`. */
  ghost predicate Overlaps(ranges: seq<Range>, offset: nat, len: nat) {
    exists i, k: nat :: 0 <= i < |ranges| && offset <= k < offset + len && In(k, ranges[i])
  }

  /** Sorted by start, disjoint and non-empty. */
  ghost predicate Proper(ranges: seq<Range>) {
    && (forall i | 0 <= i < |ranges| :: ranges[i].len > 0)
    && (forall i, j | 0 <= i < j < |ranges| :: ranges[i].start + ranges[i].len <= ranges[j].start)
  }

  /** Sorted by start, as the documentation asks. */
  ghost predicate Sorted(ranges: seq<Range>) {
    forall i, j | 0 <= i < j < |ranges| :: ranges[i].start <= ranges[j].start
  }

  function EndOf(r: Range): nat { r.start + r.len }

  /** Range `i` is the last that starts before `end`. */
  ghost predicate IsLast(ranges: seq<Range>, end: nat, i: int) {
    && 0 <= i < |ranges|
    && ranges[i].start < end
    && (i + 1 < |ranges| ==> end <= ranges[i + 1].start)
  }

  /** The fast test: the last range that starts before the end of the chunk reaches past its beginning. */
  ghost predicate Fast(ranges: seq<Range>, offset: nat, len: nat) {
    len > 0 && exists i :: IsLast(ranges, offset + len, i) && EndOf(ranges[i]) > offset
  }

  /** Binary search for the first range that starts at or after `end`. */
  method PartitionPoint(ranges: seq<Range>, end: nat) returns (idx: nat)
    requires Sorted(ranges)
    ensures idx <= |ranges|
    ensures forall i | 0 <= i < idx :: ranges[i].start < end
    ensures forall i | idx <= i < |ranges| :: end <= ranges[i].start
  {
    var lo, hi := 0, |ranges|;
    while lo < hi
      invariant 0 <= lo <= hi <= |ranges|
      invariant forall i | 0 <= i < lo :: ranges[i].start < end
      invariant forall i | hi <= i < |ranges| :: end <= ranges[i].start
    {
      var mid := (lo + hi) / 2;
      if ranges[mid].start < end { lo := mid + 1; } else { hi := mid; }
    }
    idx := lo;
  }

  method RangeIntersects(ranges: seq<Range>, offset: nat, len: nat) returns (r: bool)
    requires Sorted(ranges)
    ensures r <==> Fast(ranges, offset, len)
    ensures Proper(ranges) ==> (r <==> Overlaps(ranges, offset, len))
  {
    hide Overlaps, EndsAgree;
    if Proper(ranges) {
      ProperEndsAgree(ranges);
      FastIfEndsAgree(ranges, offset, len);
    }
    if len == 0 { return false; }
    var end := offset + len;
    var idx := PartitionPoint(ranges, end);
    if idx == 0 { return false; }
    assert IsLast(ranges, end, idx - 1);
    r := ranges[idx - 1].start + ranges[idx - 1].len > offset;
  }

  // ----- When the fast test is right -----

  /** The furthest end of the first `n` ranges, empty ones aside. */
  function MaxEnd(ranges: seq<Range>, n: nat): nat
    requires n <= |ranges|
  {
    if n == 0 then 0
    else
      var m := MaxEnd(ranges, n - 1);
      if ranges[n - 1].len > 0 && EndOf(ranges[n - 1]) > m then EndOf(ranges[n - 1]) else m
  }

  lemma {:induction false} MaxEndReaches(ranges: seq<Range>, n: nat, o: nat)
    requires n <= |ranges|
    ensures MaxEnd(ranges, n) > o <==> exists m :: 0 <= m < n && ranges[m].len > 0 && EndOf(ranges[m]) > o
  {
    if n > 0 { MaxEndReaches(ranges, n - 1, o); }
  }

  function Cap(x: nat, limit: nat): nat { if x < limit then x else limit }

  /**
    Range `i`, as far as the next range's start, ends where the furthest of the ranges up to it ends; a range with
    the same start as the next one never decides.
  */
  predicate Agrees(ranges: seq<Range>, i: nat)
    requires i < |ranges|
  {
    if i + 1 == |ranges| then EndOf(ranges[i]) == MaxEnd(ranges, i + 1)
    else
      var next := ranges[i + 1].start;
      ranges[i].start < next ==> Cap(EndOf(ranges[i]), next) == Cap(MaxEnd(ranges, i + 1), next)
  }

  ghost predicate EndsAgree(ranges: seq<Range>) { forall i | 0 <= i < |ranges| :: Agrees(ranges, i) }

  /** With range `i` last before the end of the chunk, the chunk overlaps a range exactly if the furthest end is past its beginning. */
  lemma OverlapsByMax(ranges: seq<Range>, offset: nat, len: nat, i: nat)
    requires Sorted(ranges) && len > 0 && IsLast(ranges, offset + len, i)
    ensures Overlaps(ranges, offset, len) <==> MaxEnd(ranges, i + 1) > offset
  {
    MaxEndReaches(ranges, i + 1, offset);
    if m :| 0 <= m < i + 1 && ranges[m].len > 0 && EndOf(ranges[m]) > offset {
      var k := if ranges[m].start < offset then offset else ranges[m].start;
      assert In(k, ranges[m]);
    }
    if Overlaps(ranges, offset, len) {
      var m, k: nat :| 0 <= m < |ranges| && offset <= k < offset + len && In(k, ranges[m]);
      assert m < i + 1;
    }
  }

  /** There is at most one last range, and it decides the fast test. */
  lemma FastByLast(ranges: seq<Range>, offset: nat, len: nat, i: nat)
    requires Sorted(ranges) && len > 0 && IsLast(ranges, offset + len, i)
    ensures Fast(ranges, offset, len) <==> EndOf(ranges[i]) > offset
  {
    var end := offset + len;
    forall j | IsLast(ranges, end, j) ensures j == i { OneLast(ranges, end, i, j); }
  }

  lemma OneLast(ranges: seq<Range>, end: nat, i: nat, j: int)
    requires Sorted(ranges) && IsLast(ranges, end, i) && IsLast(ranges, end, j)
    ensures j == i
  {
  }

  /** Without a range that starts before the end there is neither an overlap nor a last range. */
  lemma SomeLast(ranges: seq<Range>, end: nat) returns (i: int)
    requires Sorted(ranges)
    ensures if i < 0 then forall m | 0 <= m < |ranges| :: end <= ranges[m].start else IsLast(ranges, end, i)
  {
    i := |ranges| - 1;
    while i >= 0 && end <= ranges[i].start
      invariant -1 <= i < |ranges| && forall m | i < m < |ranges| :: end <= ranges[m].start
    {
      i := i - 1;
    }
  }

  lemma FastIfEndsAgree(ranges: seq<Range>, offset: nat, len: nat)
    requires Sorted(ranges) && EndsAgree(ranges)
    ensures Fast(ranges, offset, len) <==> Overlaps(ranges, offset, len)
  {
    hide MaxEnd;
    if len > 0 {
      var i := SomeLast(ranges, offset + len);
      if i >= 0 {
        FastByLast(ranges, offset, len, i);
        OverlapsByMax(ranges, offset, len, i);
        assert Agrees(ranges, i);
      }
    }
  }

  /** Where the ends disagree, some chunk is answered wrongly. */
  lemma DisagreementShows(ranges: seq<Range>, i: nat) returns (offset: nat, len: nat)
    requires Sorted(ranges) && i < |ranges| && !Agrees(ranges, i)
    ensures Fast(ranges, offset, len) != Overlaps(ranges, offset, len)
  {
    hide MaxEnd, Overlaps, Fast, Sorted;
    var x, y := EndOf(ranges[i]), MaxEnd(ranges, i + 1);
    offset := if x < y then x else y;
    var end := if i + 1 < |ranges| then ranges[i + 1].start
               else if offset < ranges[i].start then ranges[i].start + 1 else offset + 1;
    len := end - offset;
    assert IsLast(ranges, offset + len, i);
    FastByLast(ranges, offset, len, i);
    OverlapsByMax(ranges, offset, len, i);
  }

  /** On sorted ranges the fast test is right for every chunk if and only if the ends agree. */
  lemma FastIsRightExactlyWhen(ranges: seq<Range>)
    requires Sorted(ranges)
    ensures (forall offset, len: nat :: Fast(ranges, offset, len) <==> Overlaps(ranges, offset, len)) <==> EndsAgree(ranges)
  {
    hide Fast, Overlaps, Agrees;
    if EndsAgree(ranges) {
      forall offset: nat, len: nat ensures Fast(ranges, offset, len) <==> Overlaps(ranges, offset, len) {
        FastIfEndsAgree(ranges, offset, len);
      }
    } else {
      var i :| 0 <= i < |ranges| && !Agrees(ranges, i);
      var offset, len := DisagreementShows(ranges, i);
    }
  }

  /** Disjoint, non-empty ranges are fine. */
  lemma ProperEndsAgree(ranges: seq<Range>)
    requires Proper(ranges)
    ensures Sorted(ranges) && EndsAgree(ranges)
  {
    forall i | 0 <= i < |ranges| ensures Agrees(ranges, i) { ProperMaxEnd(ranges, i + 1); }
  }

  lemma {:induction false} ProperMaxEnd(ranges: seq<Range>, n: nat)
    requires Proper(ranges) && 0 < n <= |ranges|
    ensures MaxEnd(ranges, n) == EndOf(ranges[n - 1])
  {
    if n > 1 { ProperMaxEnd(ranges, n - 1); }
  }

  /** Sorted is not enough: behind a short range nested in a long one, the test misses the long one's bytes. */
  lemma NestedRangeIsMissed()
    ensures var ranges := [Range(0, 4096), Range(512, 512)];
            Sorted(ranges) && Overlaps(ranges, 2048, 512) && !Fast(ranges, 2048, 512)
  {
    var ranges := [Range(0, 4096), Range(512, 512)];
    assert In(2048, ranges[0]);
    assert IsLast(ranges, 2560, 1);
    FastByLast(ranges, 2048, 512, 1);
  }

  /** Every byte of the source outside the ranges is zero, and the ranges are such that the fast test is right. */
  ghost predicate Sound(ranges: Option<seq<Range>>, source: seq<Byte>) {
    ranges.Some? ==>
      && Sorted(ranges.value) && EndsAgree(ranges.value)
      && (forall k: nat | k < |source| && !Overlaps(ranges.value, k, 1) :: source[k] == 0)
  }

  /** A chunk that meets no range is zero in the source. */
  lemma GapIsZero(ranges: seq<Range>, source: seq<Byte>, offset: nat, len: nat)
    requires Sound(Some(ranges), source) && !Overlaps(ranges, offset, len) && offset + len <= |source|
    ensures source[offset..offset + len] == Zeroed(len)
  {
    hide EndsAgree;
  }

  /** A chunk holds data if the ranges are not known, or one of them shares a byte with it. */
  ghost predicate HoldsData(ranges: Option<seq<Range>>, offset: nat, len: nat) {
    ranges.Some? ==> Overlaps(ranges.value, offset, len)
  }

  /** Whether a chunk is copied (true) or cleared. */
  method IsData(ranges: Option<seq<Range>>, ghost source: seq<Byte>, offset: nat, len: nat) returns (r: bool)
    requires Sound(ranges, source) && offset + len <= |source|
    ensures r <==> HoldsData(ranges, offset, len)
    ensures !r ==> source[offset..offset + len] == Zeroed(len)
  {
    hide EndsAgree, Overlaps;
    if ranges.None? { return true; }
    FastIfEndsAgree(ranges.value, offset, len);
    r := RangeIntersects(ranges.value, offset, len);
    if !r { GapIsZero(ranges.value, source, offset, len); }
  }

  /** How many bytes lie in chunks that hold data, from `offset` on. */
  ghost function DataBytes(ranges: Option<seq<Range>>, total: nat, chunk: nat, offset: nat): (n: nat)
    requires chunk > 0
    ensures offset <= total ==> n <= total - offset
    decreases total - offset
  {
    if offset >= total then 0
    else
      var len := if chunk < total - offset then chunk else total - offset;
      DataBytes(ranges, total, chunk, offset + len) + if HoldsData(ranges, offset, len) then len else 0
  }

  /** Without ranges every byte is copied. */
  lemma {:induction false} AllIsData(total: nat, chunk: nat, offset: nat)
    requires chunk > 0 && offset <= total
    ensures DataBytes(None, total, chunk, offset) == total - offset
    decreases total - offset
  {
    if offset < total { AllIsData(total, chunk, offset + if chunk < total - offset then chunk else total - offset); }
  }

  // ----- The streamed copy -----

  /** The requests that have failed at either end. */
  ghost function Faults(source: Remote, dest: Remote): nat
    reads source`failures, dest`failures
  {
    source.failures + dest.failures
  }

  /** One chunk: read and written, or cleared. */
  method CopyChunk(source: Remote, dest: Remote, isData: bool, offset: nat, len: nat) returns (r: Result<()>)
    requires source != dest && offset + len <= |source.data| && offset + len <= |dest.data|
    requires !isData ==> source.data[offset..offset + len] == Zeroed(len)
    modifies dest, source`failures
    ensures r.Ok? ==> dest.data == Splice(old(dest.data), offset, source.data[offset..offset + len])
    ensures r.Err? ==>
      dest.data == old(dest.data) || dest.data == Splice(old(dest.data), offset, source.data[offset..offset + len])
    ensures Faults(source, dest) >= old(Faults(source, dest)) && (r.Ok? <==> Faults(source, dest) == old(Faults(source, dest)))
  {
    if !isData {
      r := dest.Clear(offset, len);
      return;
    }
    var data := source.Read(offset, len);
    if data.Err? { return Err; }
    r := dest.Write(offset, data.value);
  }

  /** The first `n` bytes of `source`, then the rest of `before`. */
  function Merged(source: seq<Byte>, before: seq<Byte>, n: nat): (r: seq<Byte>)
    requires n <= |source| && n <= |before|
    ensures |r| == |before|
    ensures forall k | 0 <= k < |r| :: r[k] == if k < n then source[k] else before[k]
  {
    source[..n] + before[n..]
  }

  /** Copy `[0, total)`; the destination may hold anything before. */
  method CopyBlobStreamed(source: Remote, dest: Remote, total: nat, ranges: Option<seq<Range>>, chunk: nat)
    returns (r: Result<()>, copied: nat, cleared: nat)
    requires source != dest && total <= |source.data| && total <= |dest.data|
    requires Sound(ranges, source.data) && chunk > 0
    modifies dest, source`failures
    ensures r.Ok? ==> dest.flushed == dest.data == Merged(source.data, old(dest.data), total)
    ensures r.Ok? ==> copied + cleared == total && copied == DataBytes(ranges, total, chunk, 0)
    ensures r.Ok? && ranges.None? ==> cleared == 0
    ensures r.Err? ==> |dest.data| == |old(dest.data)| && dest.data[total..] == old(dest.data)[total..]
    ensures Faults(source, dest) >= old(Faults(source, dest)) && (r.Ok? <==> Faults(source, dest) == old(Faults(source, dest)))
  {
    hide Splice, Sound, Merged, HoldsData, DataBytes;
    AllIsData(total, chunk, 0);
    ghost var before := dest.data;
    var offset := 0;
    MergedNone(source.data, before);
    copied, cleared := 0, 0;
    while offset < total
      invariant 0 <= offset <= total && copied + cleared == offset
      invariant copied + DataBytes(ranges, total, chunk, offset) == DataBytes(ranges, total, chunk, 0)
      invariant dest.data == Merged(source.data, before, offset)
      invariant Faults(source, dest) == old(Faults(source, dest))
      invariant source.data == old(source.data)
    {
      var len := if chunk < total - offset then chunk else total - offset;
      var isData := IsData(ranges, source.data, offset, len);
      DataStep(ranges, total, chunk, offset, len);
      StreamedStep(source.data, before, offset, len, total);
      r := CopyChunk(source, dest, isData, offset, len);
      if r.Err? { return; }
      if isData { copied := copied + len; } else { cleared := cleared + len; }
      offset := offset + len;
    }
    DataEnds(ranges, total, chunk);
    r := dest.Sync();
  }

  lemma DataEnds(ranges: Option<seq<Range>>, total: nat, chunk: nat)
    requires chunk > 0
    ensures DataBytes(ranges, total, chunk, total) == 0
  {
  }

  lemma StreamedStep(source: seq<Byte>, before: seq<Byte>, offset: nat, len: nat, total: nat)
    requires offset + len <= total <= |source| && total <= |before|
    ensures var now := Merged(source, before, offset);
            var next := Merged(source, before, offset + len);
            && next == Splice(now, offset, source[offset..offset + len])
            && now[total..] == before[total..] == next[total..]
  {
  }

  lemma MergedNone(source: seq<Byte>, before: seq<Byte>)
    ensures Merged(source, before, 0) == before
  {
  }

  // ----- The server-side copy -----

  function ChunkLen(total: nat, chunk: nat, i: nat): nat { PM.PageLen(total, chunk, i) }

  /** Chunk `i` of the destination is the source's. */
  ghost predicate ChunkDone(source: seq<Byte>, dest: seq<Byte>, total: nat, chunk: nat, i: nat) {
    forall k: nat | k < total && k < |source| && k < |dest| && i * chunk <= k < i * chunk + chunk :: dest[k] == source[k]
  }

  ghost predicate ChunksDone(source: seq<Byte>, dest: seq<Byte>, total: nat, chunk: nat, done: set<nat>) {
    forall i | i in done :: ChunkDone(source, dest, total, chunk, i)
  }

  /** A chunk copy lands: its chunk is done, the others stay as they are, and nothing past the end changes. */
  lemma ChunkLands(source: seq<Byte>, dest: seq<Byte>, total: nat, chunk: nat, done: set<nat>, i: nat)
    requires chunk > 0 && total <= |source| && total <= |dest| && ChunkLen(total, chunk, i) > 0
    requires ChunksDone(source, dest, total, chunk, done)
    ensures var o, len := i * chunk, ChunkLen(total, chunk, i);
            var dest' := Splice(dest, o, source[o..o + len]);
            ChunksDone(source, dest', total, chunk, done + {i}) && dest'[total..] == dest[total..]
  {
  }

  lemma SmallerChunk(q: nat, n: nat, chunk: nat)
    requires q * chunk < n * chunk
    ensures q < n
  {
  }

  /** All chunks done is all bytes done. */
  lemma AllChunks(source: seq<Byte>, dest: seq<Byte>, total: nat, chunk: nat, done: set<nat>, n: nat)
    requires chunk > 0 && total <= |source| && total <= |dest| && total <= n * chunk
    requires ChunksDone(source, dest, total, chunk, done) && forall i: nat | i < n :: i in done
    ensures dest[..total] == source[..total]
  {
    forall k: nat | k < total ensures dest[k] == source[k] {
      PM.PageRange(k, k / chunk, chunk);
      SmallerChunk(k / chunk, n, chunk);
      assert ChunkDone(source, dest, total, chunk, k / chunk);
    }
  }

  /** The byte counts of the chunks below `n` add up. */
  lemma CountNext(total: nat, chunk: nat, n: nat)
    requires chunk > 0 && n * chunk < total
    ensures ChunkLen(total, chunk, n) > 0
    ensures Covered(total, chunk, n + 1) == Covered(total, chunk, n) + ChunkLen(total, chunk, n)
  {
  }

  lemma DataNext(ranges: Option<seq<Range>>, total: nat, chunk: nat, n: nat)
    requires chunk > 0 && n * chunk < total
    ensures DataBytes(ranges, total, chunk, Covered(total, chunk, n)) ==
            DataBytes(ranges, total, chunk, Covered(total, chunk, n + 1)) +
            if HoldsData(ranges, n * chunk, ChunkLen(total, chunk, n)) then ChunkLen(total, chunk, n) else 0
  {
    hide HoldsData, Covered, DataBytes;
    CountNext(total, chunk, n);
    CoveredIs(total, chunk, n);
    DataStep(ranges, total, chunk, n * chunk, ChunkLen(total, chunk, n));
  }

  lemma CoveredIs(total: nat, chunk: nat, n: nat)
    requires n * chunk < total
    ensures Covered(total, chunk, n) == n * chunk
    ensures ChunkLen(total, chunk, n) == if chunk < total - n * chunk then chunk else total - n * chunk
  {
  }

  lemma DataStep(ranges: Option<seq<Range>>, total: nat, chunk: nat, offset: nat, len: nat)
    requires chunk > 0 && offset < total && len == if chunk < total - offset then chunk else total - offset
    ensures DataBytes(ranges, total, chunk, offset) ==
            DataBytes(ranges, total, chunk, offset + len) + if HoldsData(ranges, offset, len) then len else 0
  {
  }

  function Covered(total: nat, chunk: nat, n: nat): nat { if n * chunk < total then n * chunk else total }

  /** One batch: each chunk is sent once, and the sends complete in any order. */
  method CopyBatch(source: Remote, dest: Remote, total: nat, ranges: Option<seq<Range>>, chunk: nat, pending0: set<nat>, ghost done: set<nat>)
    returns (r: Result<()>)
    requires source != dest && total <= |source.data| && total <= |dest.data| && chunk > 0
    requires Sound(ranges, source.data) && forall i | i in pending0 :: ChunkLen(total, chunk, i) > 0
    requires ChunksDone(source.data, dest.data, total, chunk, done)
    modifies dest, source`failures
    ensures |dest.data| == |old(dest.data)| && dest.data[total..] == old(dest.data)[total..]
    ensures r.Ok? ==> ChunksDone(source.data, dest.data, total, chunk, done + pending0)
    ensures Faults(source, dest) >= old(Faults(source, dest)) && (r.Ok? <==> Faults(source, dest) == old(Faults(source, dest)))
  {
    hide Splice, Sound, ChunksDone, ChunkLen;
    var pending := pending0;
    ghost var finished := done;
    while pending != {}
      invariant pending <= pending0 && finished == done + (pending0 - pending)
      invariant source.data == old(source.data) && |dest.data| == |old(dest.data)|
      invariant dest.data[total..] == old(dest.data)[total..]
      invariant ChunksDone(source.data, dest.data, total, chunk, finished)
      invariant Faults(source, dest) == old(Faults(source, dest))
      decreases pending
    {
      var i :| i in pending;
      var offset, len := i * chunk, ChunkLen(total, chunk, i);
      assert offset + len <= total by { ChunkWithin(total, chunk, i); }
      var isData := IsData(ranges, source.data, offset, len);
      ChunkLands(source.data, dest.data, total, chunk, finished, i);
      r := CopyChunk(source, dest, isData, offset, len);
      if r.Err? { return; }
      finished := finished + {i};
      pending := pending - {i};
    }
    assert finished == done + pending0;
    r := Ok(());
  }

  lemma ChunkWithin(total: nat, chunk: nat, i: nat)
    requires ChunkLen(total, chunk, i) > 0
    ensures i * chunk + ChunkLen(total, chunk, i) <= total
  {
  }

  /** Copy `[0, total)` in batches; within a batch the chunks complete in any order. */
  method CopyPagesFromUrl(source: Remote, dest: Remote, total: nat, ranges: Option<seq<Range>>, chunk: nat, perBatch: nat)
    returns (r: Result<()>, copied: nat, cleared: nat)
    requires source != dest && total <= |source.data| && total <= |dest.data|
    requires Sound(ranges, source.data) && chunk > 0 && perBatch > 0
    modifies dest, source`failures
    ensures !Aligned(total) ==> dest.data == old(dest.data)
    ensures |dest.data| == |old(dest.data)| && dest.data[total..] == old(dest.data)[total..]
    ensures r.Ok? ==> dest.data[..total] == source.data[..total]
    ensures Faults(source, dest) >= old(Faults(source, dest))
    ensures r.Ok? <==> Aligned(total) && Faults(source, dest) == old(Faults(source, dest))
    ensures r.Ok? ==> copied + cleared == total && copied == DataBytes(ranges, total, chunk, 0)
    ensures r.Ok? && ranges.None? ==> cleared == 0
  {
    hide Splice, Sound, ChunksDone, ChunkLen, Covered, DataBytes;
    AllIsData(total, chunk, 0);
    copied, cleared := 0, 0;
    if !Aligned(total) { return Err, 0, 0; }
    var n := (total + chunk - 1) / chunk;
    ChunkCount(total, chunk);
    ghost var done: set<nat> := {};
    assert ChunksDone(source.data, dest.data, total, chunk, done) by { NoneDone(source.data, dest.data, total, chunk); }
    CoveredNone(total, chunk);
    var start := 0;
    while start < n
      invariant 0 <= start <= n && forall i: nat :: i in done <==> i < start
      invariant source.data == old(source.data) && |dest.data| == |old(dest.data)|
      invariant dest.data[total..] == old(dest.data)[total..]
      invariant ChunksDone(source.data, dest.data, total, chunk, done)
      invariant Faults(source, dest) == old(Faults(source, dest))
      invariant copied + cleared == Covered(total, chunk, start)
      invariant copied + DataBytes(ranges, total, chunk, Covered(total, chunk, start)) == DataBytes(ranges, total, chunk, 0)
    {
      var end := if start + perBatch < n then start + perBatch else n;
      var more, gap, batch := PlanBatch(source, total, ranges, chunk, n, start, end);
      copied, cleared := copied + more, cleared + gap;
      r := CopyBatch(source, dest, total, ranges, chunk, batch, done);
      if r.Err? { return; }
      done := done + batch;
      start := end;
    }
    AllChunks(source.data, dest.data, total, chunk, done, n);
    CoveredAll(total, chunk, n);
    DataEnds(ranges, total, chunk);
    r := Ok(());
  }

  /** The chunks of a batch, and how many of its bytes will be copied and how many cleared. */
  method PlanBatch(source: Remote, total: nat, ranges: Option<seq<Range>>, chunk: nat, n: nat, start: nat, end: nat)
    returns (copied: nat, cleared: nat, batch: set<nat>)
    requires total <= |source.data| && Sound(ranges, source.data) && chunk > 0 && start <= end <= n
    requires forall i: nat | i < n :: i * chunk < total
    ensures forall i: nat :: i in batch <==> start <= i < end
    ensures forall i | i in batch :: ChunkLen(total, chunk, i) > 0
    ensures Covered(total, chunk, start) + copied + cleared == Covered(total, chunk, end)
    ensures DataBytes(ranges, total, chunk, Covered(total, chunk, start)) ==
            copied + DataBytes(ranges, total, chunk, Covered(total, chunk, end))
  {
    hide Sound, ChunkLen, Covered, DataBytes, HoldsData;
    copied, cleared, batch := 0, 0, {};
    var i := start;
    while i < end
      invariant start <= i <= end && forall j: nat :: j in batch <==> start <= j < i
      invariant forall j | j in batch :: ChunkLen(total, chunk, j) > 0
      invariant Covered(total, chunk, start) + copied + cleared == Covered(total, chunk, i)
      invariant DataBytes(ranges, total, chunk, Covered(total, chunk, start)) ==
                copied + DataBytes(ranges, total, chunk, Covered(total, chunk, i))
    {
      CountNext(total, chunk, i);
      DataNext(ranges, total, chunk, i);
      ChunkWithin(total, chunk, i);
      var len := ChunkLen(total, chunk, i);
      var isData := IsData(ranges, source.data, i * chunk, len);
      if isData { copied := copied + len; } else { cleared := cleared + len; }
      batch := batch + {i};
      i := i + 1;
    }
  }

  lemma ChunkCount(total: nat, chunk: nat)
    requires chunk > 0
    ensures var n := (total + chunk - 1) / chunk;
            total <= n * chunk && forall i: nat | i < n :: i * chunk < total
  {
    var n := (total + chunk - 1) / chunk;
    PM.PageRange(total + chunk - 1, n, chunk);
    forall i: nat | i < n ensures i * chunk < total { assert (i + 1) * chunk <= n * chunk; }
  }

  lemma NoneDone(source: seq<Byte>, dest: seq<Byte>, total: nat, chunk: nat)
    ensures ChunksDone(source, dest, total, chunk, {})
  {
  }

  lemma CoveredNone(total: nat, chunk: nat)
    ensures Covered(total, chunk, 0) == 0
  {
  }

  lemma CoveredAll(total: nat, chunk: nat, n: nat)
    requires total <= n * chunk
    ensures Covered(total, chunk, n) == total
  {
  }
}
