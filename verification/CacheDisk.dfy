/**
  The local-disk cache on its files: what a crash or a power loss at any file operation leaves behind.

  The data file and the two bitmaps of the metadata file each have a content the operating system shows and a
  content that is durable.  The kernel may write any byte back at any time; a sync writes everything back.  A
  process crash loses memory only, a power loss loses everything that is not durable.
*/
module CacheDisk {
  import opened Store
  import opened FileCache
  import opened FileCacheRefinement
  import FileCacheRuns

  /**
    The metadata update the lock holder is in the middle of: `PresentByte` is the unsynced write of a clean
    page's present bit, `Bits` is the present byte, then the dirty byte, then the metadata sync.
  */
  datatype Pending = Nothing | PresentByte(page: nat) | Bits(page: nat, stage: nat)

  datatype Disk = Disk(
    hard: seq<Byte>,
    soft: set<nat>,
    present: set<nat>,
    dirty: set<nat>,
    hardPresent: set<nat>,
    hardDirty: set<nat>,
    pending: Pending)

  datatype World = World(fc: State, disk: Disk)

  datatype Event =
    | Cache(l: Label)
    | WritePresent(ok: bool)
    | WriteDirty
    | SyncMeta
    | KernelData(keys: set<nat>)
    | KernelPresent(byte: nat)
    | KernelDirty(byte: nat)

  /** One bitmap byte holds eight pages: writing byte `b` takes all eight bits from `now`. */
  function ByteOf(was: set<nat>, now: set<nat>, b: nat): (r: set<nat>)
    ensures forall q :: q in r <==> if q / 8 == b then q in now else q in was
  {
    (set q | q in was && q / 8 != b) + (set q | q in now && q / 8 == b)
  }

  ghost predicate CanDo(w: World, e: Event) {
    && w.fc.Shape()
    && |w.disk.hard| == |w.fc.blob|
    && match e
       case Cache(l) => Enabled(w.fc, l) && (w.disk.pending.Nothing? || Unlocked(l))
       case WritePresent(ok) =>
         w.disk.pending.PresentByte? || (ok && w.disk.pending.Bits? && w.disk.pending.stage == 0)
       case WriteDirty => w.disk.pending.Bits? && w.disk.pending.stage == 1
       case SyncMeta => w.disk.pending.Bits? && w.disk.pending.stage == 2
       case KernelData(keys) => true
       case KernelPresent(b) => true
       case KernelDirty(b) => true
  }

  /**
    The file operations behind a cache step.  Putting bytes leaves them unsynced; marking a page dirty first
    syncs the data file, then starts the metadata update; cleaning a page starts one too.
  */
  ghost function FileOps(s: State, l: Label, d: Disk): Disk
    requires Enabled(s, l)
  {
    match l
    case PutData(p, keys) => d.(soft := d.soft + keys)
    case FetchPut(id, keys) => d.(soft := d.soft + keys)
    case MarkDirty(p) => d.(hard := s.data, soft := {}, pending := Bits(p, 0))
    case FetchMark(id) => d.(pending := PresentByte(s.fetches[id].page))
    case Finish(id) => if SameGeneration(s, s.flights[id]) then d.(pending := Bits(s.flights[id].page, 0)) else d
    case Evict(p) => d.(soft := d.soft + PageKeys(s.pg, p), pending := PresentByte(p))
    case _ => d
  }

  ghost function Do(w: World, e: Event): World
    requires CanDo(w, e)
  {
    var d := w.disk;
    match e
    case Cache(l) => World(Next(w.fc, l), FileOps(w.fc, l, d))
    case WritePresent(ok) =>
      var d' := if ok then d.(present := ByteOf(d.present, w.fc.present, d.pending.page / 8)) else d;
      w.(disk := d'.(pending := if d.pending.PresentByte? then Nothing else Bits(d.pending.page, 1)))
    case WriteDirty =>
      w.(disk := d.(dirty := ByteOf(d.dirty, w.fc.dirty, d.pending.page / 8), pending := Bits(d.pending.page, 2)))
    case SyncMeta => w.(disk := d.(hardPresent := d.present, hardDirty := d.dirty, pending := Nothing))
    case KernelData(keys) => w.(disk := d.(hard := Overlay(d.hard, Cut(w.fc.data, keys))))
    case KernelPresent(b) => w.(disk := d.(hardPresent := ByteOf(d.hardPresent, d.present, b)))
    case KernelDirty(b) => w.(disk := d.(hardDirty := ByteOf(d.hardDirty, d.dirty, b)))
  }

  /** The hypotheses: those of the cache. */
  ghost predicate Careful(w: World, e: Event) {
    e.Cache? ==> Disciplined(w.fc, e.l)
  }

  /** No eviction at all. */
  predicate NoEviction(e: Event) { !(e.Cache? && e.l.Evict?) }

  // ----- Invariant -----

  /** The metadata update in progress is not about page `q`. */
  predicate Settled(d: Disk, q: nat) { d.pending.Bits? ==> d.pending.page != q }

  ghost predicate DirtyBits(w: World) {
    var d := w.disk;
    && d.dirty <= d.present
    && d.dirty <= w.fc.present
    && d.hardDirty <= w.fc.present
    && (forall q | Settled(d, q) :: (q in d.dirty <==> q in w.fc.dirty) && (q in d.hardDirty <==> q in w.fc.dirty))
    && (d.pending.Bits? ==>
          if d.pending.stage < 2 then d.pending.page in d.dirty <==> d.pending.page in d.hardDirty
          else d.pending.page in d.dirty <==> d.pending.page in w.fc.dirty)
  }

  ghost predicate PresentBits(w: World) {
    var d := w.disk;
    && (forall q | q in w.fc.dirty && Settled(d, q) :: q in d.present && q in d.hardPresent)
    && (d.pending.Bits? ==>
          && d.pending.stage <= 2
          && d.pending.page in w.fc.present
          && (d.pending.stage > 0 ==> d.pending.page in d.present))
  }

  /** The pages the metadata file lists although they have been evicted. */
  function Stale(w: World): set<nat> { w.disk.present - w.fc.present }

  /**
    A page that is listed although it was evicted reads as the hole, except where a fetch has put the blob's bytes
    or a writer its own; while its bit is being cleared it is all hole.
  */
  ghost predicate StaleBytes(w: World)
    requires w.fc.Shape()
  {
    && (forall k: nat | k < |w.fc.blob| && w.fc.pg[k] in Stale(w) && !w.fc.InPart(k) ::
          w.fc.data[k] == 0 || w.fc.data[k] == w.fc.blob[k])
    && (w.disk.pending.PresentByte? && w.disk.pending.page !in w.fc.present ==>
          w.fc.Calm() && forall k: nat | k < |w.fc.blob| && w.fc.pg[k] == w.disk.pending.page :: w.fc.data[k] == 0)
  }

  /** What a writer has put over a page that is not dirty, the blob still has as it was. */
  ghost predicate PartOnOldBlob(s: State)
    requires s.Shape()
  {
    s.client.Writer? && |s.client.before| == |s.blob| ==>
      forall k | k in s.client.part && k < |s.blob| && s.pg[k] !in s.dirty :: s.blob[k] == s.client.before[k]
  }

  /** A page being dirtied for the first time is, until both its bits are durable, on the blob as it was. */
  ghost predicate FirstDirty(w: World)
    requires w.fc.Shape()
  {
    var d := w.disk;
    d.pending.Bits? && d.pending.page in w.fc.dirty && !(d.pending.page in d.hardDirty && d.pending.page in d.hardPresent) ==>
      && w.fc.client.Writer?
      && |w.fc.client.before| == |w.fc.blob|
      && (forall id | id in w.fc.flights :: w.fc.flights[id].page != d.pending.page)
      && (forall k: nat | k < |w.fc.blob| && w.fc.pg[k] == d.pending.page :: w.fc.blob[k] == w.fc.client.before[k])
  }

  /** Unsynced bytes belong to the write in progress or to a page that no dirty bit, durable or not, names. */
  ghost predicate HardData(w: World)
    requires w.fc.Shape()
  {
    && |w.disk.hard| == |w.fc.blob|
    && (forall k: nat | k < |w.fc.blob| && k !in w.disk.soft :: w.disk.hard[k] == w.fc.data[k])
    && (forall k: nat | k < |w.fc.blob| && k in w.disk.soft && !w.fc.InPart(k) ::
          w.fc.pg[k] !in w.fc.dirty && w.fc.pg[k] !in w.disk.hardDirty && w.fc.pg[k] !in w.disk.dirty)
    && (w.fc.client.Writer? && |w.fc.client.before| == |w.fc.blob| ==>
          forall k: nat | k < |w.fc.blob| && k in w.fc.client.part && k in w.fc.client.img && w.fc.pg[k] in w.fc.dirty ::
            w.disk.hard[k] == w.fc.client.before[k] || w.disk.hard[k] == w.fc.client.img[k])
    && (w.disk.pending.Bits? ==> w.fc.Calm() && forall k | k in w.disk.soft && k < |w.fc.blob| :: w.fc.pg[k] != w.disk.pending.page)
  }

  ghost predicate DiskInv(w: World) {
    && Inv(w.fc) && DirtyBits(w) && PresentBits(w) && PartOnOldBlob(w.fc) && FirstDirty(w) && HardData(w) && StaleBytes(w)
  }

  lemma CacheKeepsBits(w: World, l: Label)
    requires CanDo(w, Cache(l)) && DirtyBits(w) && PresentBits(w) && w.fc.dirty <= w.fc.present
    requires FlightsOk(w.fc)
    ensures DirtyBits(Do(w, Cache(l))) && PresentBits(Do(w, Cache(l)))
  {
    var v := Do(w, Cache(l));
    if l.MarkDirty? {
      assert v.fc == Mark(w.fc, l.page);
    } else if l.Finish? {
      assert v.fc == Finished(w.fc, l.id) && FlightOk(w.fc, w.fc.flights[l.id]);
    } else if l.FetchMark? {
      assert v.fc == FetchedMark(w.fc, l.id);
    } else if l.Evict? {
      assert v.fc == Evicted(w.fc, l.page);
    } else {
      assert v.fc.present == w.fc.present && v.fc.dirty == w.fc.dirty;
      assert v.disk == w.disk.(soft := v.disk.soft);
    }
  }

  lemma FileKeepsBits(w: World, e: Event)
    requires CanDo(w, e) && !e.Cache? && DirtyBits(w) && PresentBits(w) && w.fc.dirty <= w.fc.present
    ensures DirtyBits(Do(w, e)) && PresentBits(Do(w, e))
  {
  }

  lemma EventKeepsPart(w: World, l: Label)
    requires Enabled(w.fc, l) && Disciplined(w.fc, l) && Inv(w.fc) && PartOnOldBlob(w.fc)
    ensures Next(w.fc, l).Shape() && PartOnOldBlob(Next(w.fc, l))
  {
    var s, t := w.fc, Next(w.fc, l);
    if l.PutData? {
      assert t == Put(s, l.page, l.keys);
      forall k | k in t.client.part && k < |s.blob| && s.pg[k] !in s.dirty ensures s.blob[k] == s.client.before[k] {
        assert At(s, k) == WriterByte(s, k);
      }
    } else if l.Land? {
      assert FlightOk(s, s.flights[l.id]);
    } else if l.MarkDirty? {
    } else if l.BeginWrite? {
    } else if IsClientLabel(l) {
    } else {
      assert t.client == s.client && t.blob == s.blob && t.dirty <= s.dirty;
    }
  }

  lemma MarkDirtyKeepsFirst(w: World, p: nat)
    requires CanDo(w, Cache(MarkDirty(p))) && Inv(w.fc) && DirtyBits(w) && PresentBits(w) && PartOnOldBlob(w.fc)
    ensures FirstDirty(Do(w, Cache(MarkDirty(p))))
  {
    hide DirtyBits, PresentBits, Inv;
    var s := w.fc;
    var v := Do(w, Cache(MarkDirty(p)));
    assert v.fc == Mark(s, p);
    DirtyIsDurable(w, p);
    if p !in s.dirty {
      FirstMark(s, p);
    }
  }

  /** Between operations a dirty page has both its bits durable, and no other page its dirty bit. */
  lemma DirtyIsDurable(w: World, p: nat)
    requires DirtyBits(w) && PresentBits(w) && w.disk.pending.Nothing?
    ensures p in w.fc.dirty <==> p in w.disk.hardDirty
    ensures p in w.fc.dirty ==> p in w.disk.hardPresent
  {
  }

  /** A page that is about to become dirty has no upload in flight, and the blob has it as the write found it. */
  lemma FirstMark(s: State, p: nat)
    requires CanMark(s, p) && Inv(s) && PartOnOldBlob(s) && p !in s.dirty
    ensures |s.client.before| == |s.blob| && forall id | id in s.flights :: s.flights[id].page != p
    ensures forall k: nat | k < |s.blob| && s.pg[k] == p :: s.blob[k] == s.client.before[k]
  {
    forall id | id in s.flights ensures s.flights[id].page != p {
      assert FlightOk(s, s.flights[id]);
    }
    forall k: nat | k < |s.blob| && s.pg[k] == p ensures s.blob[k] == s.client.before[k] {
      assert At(s, k) == WriterByte(s, k);
      var j :| j in s.client.part;
      assert s.pg[j] == p;
    }
  }

  lemma LandKeepsFirst(w: World, id: nat, keys: set<nat>)
    requires CanDo(w, Cache(Land(id, keys))) && FirstDirty(w) && FlightsOk(w.fc)
    ensures FirstDirty(Do(w, Cache(Land(id, keys))))
  {
    assert Do(w, Cache(Land(id, keys))).fc == Landed(w.fc, id, keys);
    assert FlightOk(w.fc, w.fc.flights[id]);
  }

  lemma CacheKeepsFirst(w: World, l: Label)
    requires CanDo(w, Cache(l)) && DiskInv(w)
    ensures Do(w, Cache(l)).fc.Shape() && FirstDirty(Do(w, Cache(l)))
  {
    hide DirtyBits, PresentBits, HardData, StaleBytes, PartOnOldBlob;
    if l.MarkDirty? {
      MarkDirtyKeepsFirst(w, l.page);
    } else if l.Land? {
      LandKeepsFirst(w, l.id, l.keys);
    } else if l.Finish? {
      FinishKeepsFirst(w, l.id);
    } else if Unlocked(l) {
      QuietKeepsFirst(w, Do(w, Cache(l)));
    } else {
      assert !Do(w, Cache(l)).disk.pending.Bits?;
    }
  }

  lemma FinishKeepsFirst(w: World, id: nat)
    requires CanDo(w, Cache(Finish(id))) && w.disk.pending.Nothing?
    ensures FirstDirty(Do(w, Cache(Finish(id))))
  {
  }

  /** An unlocked step other than a landing leaves everything this speaks of alone, but for ending flights. */
  lemma QuietKeepsFirst(w: World, v: World)
    requires w.fc.Shape() && FirstDirty(w) && v.disk == w.disk
    requires v.fc == w.fc.(flights := v.fc.flights, fetches := v.fc.fetches)
    requires forall id | id in v.fc.flights :: id in w.fc.flights && v.fc.flights[id] == w.fc.flights[id]
    ensures FirstDirty(v)
  {
  }

  lemma FileKeepsFirst(w: World, e: Event)
    requires CanDo(w, e) && !e.Cache? && FirstDirty(w) && DirtyBits(w) && PresentBits(w)
    ensures FirstDirty(Do(w, e))
  {
    var v := Do(w, e);
    if v.disk.pending.Bits? {
      PairStays(w, e);
    }
  }

  /** A pair of bits that is durable stays durable. */
  lemma PairStays(w: World, e: Event)
    requires CanDo(w, e) && !e.Cache? && DirtyBits(w) && PresentBits(w) && Do(w, e).disk.pending.Bits?
    ensures var d, p := w.disk, Do(w, e).disk.pending.page;
            && d.pending.Bits? && d.pending.page == p
            && (p in w.fc.dirty && p in d.hardDirty && p in d.hardPresent ==>
                  p in Do(w, e).disk.hardDirty && p in Do(w, e).disk.hardPresent)
  {
  }

  lemma PutDataKeepsHard(w: World, p: nat, keys: set<nat>)
    requires CanDo(w, Cache(PutData(p, keys))) && HardData(w) && ClientOk(w.fc) && w.fc.dirty <= w.fc.present
    ensures HardData(Do(w, Cache(PutData(p, keys))))
  {
    var s := w.fc;
    var v := Do(w, Cache(PutData(p, keys)));
    assert v.fc == Put(s, p, keys) && v.disk == w.disk.(soft := w.disk.soft + keys);
    forall k: nat | k < |s.blob| && k in v.fc.client.part && s.pg[k] in s.dirty
      ensures v.disk.hard[k] == s.client.before[k] || v.disk.hard[k] == s.client.img[k]
    {
      assert At(s, k) == WriterByte(s, k);
    }
  }

  lemma FetchPutKeepsHard(w: World, id: nat, keys: set<nat>)
    requires CanDo(w, Cache(FetchPut(id, keys))) && HardData(w) && DirtyBits(w) && PresentBits(w)
    requires w.fc.dirty <= w.fc.present
    requires forall k | k in w.fc.fetches[id].img :: k in PageKeys(w.fc.pg, w.fc.fetches[id].page)
    ensures HardData(Do(w, Cache(FetchPut(id, keys))))
  {
  }

  lemma MarkKeepsHard(w: World, p: nat)
    requires CanDo(w, Cache(MarkDirty(p))) && DiskInv(w)
    ensures HardData(Do(w, Cache(MarkDirty(p))))
  {
    assert Do(w, Cache(MarkDirty(p))).fc == Mark(w.fc, p);
  }

  lemma FinishKeepsHard(w: World, id: nat)
    requires CanDo(w, Cache(Finish(id))) && DiskInv(w)
    ensures HardData(Do(w, Cache(Finish(id))))
  {
    assert Do(w, Cache(Finish(id))).fc == Finished(w.fc, id) && FlightOk(w.fc, w.fc.flights[id]);
  }

  lemma EvictKeepsHard(w: World, p: nat)
    requires CanDo(w, Cache(Evict(p))) && DiskInv(w)
    ensures HardData(Do(w, Cache(Evict(p))))
  {
    assert Do(w, Cache(Evict(p))).fc == Evicted(w.fc, p);
  }

  lemma CacheKeepsHard(w: World, l: Label)
    requires CanDo(w, Cache(l)) && Careful(w, Cache(l)) && DiskInv(w)
    ensures Do(w, Cache(l)).fc.Shape() && HardData(Do(w, Cache(l)))
  {
    var s := w.fc;
    var v := Do(w, Cache(l));
    if l.PutData? {
      PutDataKeepsHard(w, l.page, l.keys);
    } else if l.FetchPut? {
      assert FetchOk(s, s.fetches[l.id]);
      FetchPutKeepsHard(w, l.id, l.keys);
    } else if l.MarkDirty? {
      MarkKeepsHard(w, l.page);
    } else if l.Finish? {
      FinishKeepsHard(w, l.id);
    } else if l.Evict? {
      EvictKeepsHard(w, l.page);
    } else {
      assert v.fc.data == s.data && v.fc.dirty == s.dirty && v.fc.pg == s.pg && |v.fc.blob| == |s.blob|;
      assert v.disk == w.disk.(pending := v.disk.pending) && (v.disk.pending.Bits? ==> v.disk == w.disk);
      assert v.fc.client == s.client || (s.Calm() && v.fc.Calm() && w.disk.pending.Nothing?);
      CalmKeepsHard(w, v);
    }
  }

  lemma CalmKeepsHard(w: World, v: World)
    requires w.fc.Shape() && v.fc.Shape() && HardData(w)
    requires v.fc.data == w.fc.data && v.fc.dirty == w.fc.dirty && v.fc.pg == w.fc.pg
    requires v.disk == w.disk.(pending := v.disk.pending) && (v.disk.pending.Bits? ==> v.disk == w.disk)
    requires v.fc.client == w.fc.client || (w.fc.Calm() && v.fc.Calm() && !v.disk.pending.Bits?)
    ensures HardData(v)
  {
  }

  lemma FileKeepsHard(w: World, e: Event)
    requires CanDo(w, e) && !e.Cache? && HardData(w) && DirtyBits(w) && ClientOk(w.fc)
    ensures HardData(Do(w, e))
  {
  }

  lemma PutKeepsStale(w: World, p: nat, keys: set<nat>)
    requires CanDo(w, Cache(PutData(p, keys))) && StaleBytes(w)
    ensures StaleBytes(Do(w, Cache(PutData(p, keys))))
  {
    assert Do(w, Cache(PutData(p, keys))).fc == Put(w.fc, p, keys);
  }

  lemma FetchPutKeepsStale(w: World, id: nat, keys: set<nat>)
    requires CanDo(w, Cache(FetchPut(id, keys))) && StaleBytes(w) && FetchesOk(w.fc)
    ensures StaleBytes(Do(w, Cache(FetchPut(id, keys))))
  {
    assert FetchOk(w.fc, w.fc.fetches[id]);
    assert Do(w, Cache(FetchPut(id, keys))).fc == FetchedPut(w.fc, id, keys);
  }

  lemma LandKeepsStale(w: World, id: nat, keys: set<nat>)
    requires CanDo(w, Cache(Land(id, keys))) && StaleBytes(w) && FlightsOk(w.fc) && w.fc.dirty <= w.fc.present
    ensures StaleBytes(Do(w, Cache(Land(id, keys))))
  {
    assert FlightOk(w.fc, w.fc.flights[id]);
    assert Do(w, Cache(Land(id, keys))).fc == Landed(w.fc, id, keys);
  }

  lemma EvictKeepsStale(w: World, p: nat)
    requires CanDo(w, Cache(Evict(p))) && StaleBytes(w)
    ensures StaleBytes(Do(w, Cache(Evict(p))))
  {
    assert Do(w, Cache(Evict(p))).fc == Evicted(w.fc, p);
  }

  /** Steps that move neither data nor blob, and take no page out of the cache. */
  lemma QuietKeepsStale(w: World, v: World)
    requires w.fc.Shape() && v.fc.Shape() && StaleBytes(w)
    requires v.fc.pg == w.fc.pg && v.fc.data == w.fc.data && v.fc.blob == w.fc.blob && w.fc.present <= v.fc.present
    requires v.disk.present <= w.disk.present + v.fc.present
    requires forall k: nat | k < |w.fc.blob| && w.fc.InPart(k) && !v.fc.InPart(k) :: w.fc.pg[k] in v.fc.present
    requires v.disk.pending.PresentByte? && v.disk.pending.page !in v.fc.present ==>
               v.disk.pending == w.disk.pending && v.fc.client == w.fc.client
    ensures StaleBytes(v)
  {
  }

  lemma CacheKeepsStale(w: World, l: Label)
    requires CanDo(w, Cache(l)) && StaleBytes(w) && Inv(w.fc)
    ensures Do(w, Cache(l)).fc.Shape() && StaleBytes(Do(w, Cache(l)))
  {
    hide StaleBytes, Inv;
    InvParts(w.fc);
    if l.PutData? {
      PutKeepsStale(w, l.page, l.keys);
    } else if l.FetchPut? {
      FetchPutKeepsStale(w, l.id, l.keys);
    } else if l.Land? {
      LandKeepsStale(w, l.id, l.keys);
    } else if l.Evict? {
      EvictKeepsStale(w, l.page);
    } else {
      QuietKeepsStale(w, Do(w, Cache(l)));
    }
  }

  lemma InvParts(s: State)
    requires Inv(s)
    ensures s.Shape() && FlightsOk(s) && FetchesOk(s) && s.dirty <= s.present
  {
  }

  lemma FileKeepsStale(w: World, e: Event)
    requires CanDo(w, e) && !e.Cache? && StaleBytes(w)
    ensures StaleBytes(Do(w, e))
  {
    hide StaleBytes;
    QuietKeepsStale(w, Do(w, e));
  }

  lemma EventKeepsDiskInv(w: World, e: Event)
    requires CanDo(w, e) && Careful(w, e) && DiskInv(w)
    ensures DiskInv(Do(w, e))
  {
    if e.Cache? {
      CacheKeepsFirst(w, e.l);
      StepRefines(w.fc, e.l);
      CacheKeepsBits(w, e.l);
      EventKeepsPart(w, e.l);
      CacheKeepsHard(w, e.l);
      CacheKeepsStale(w, e.l);
    } else {
      FileKeepsFirst(w, e);
      FileKeepsStale(w, e);
      FileKeepsBits(w, e);
      FileKeepsHard(w, e);
    }
  }
}
