/**
  Crash recovery: reopening the cache after a process crash or a power loss at any file operation.
*/
module CrashRecovery {
  import opened Store
  import opened FileCache
  import opened FileCacheRefinement
  import opened FileCacheRuns
  import opened CacheDisk

  datatype History = Boot(w: World) | After(prev: History, e: Event) {

    ghost predicate Valid()
      decreases this, 0
    {
      match this
      case Boot(w) => true
      case After(h, e) => h.Valid() && CanDo(h.Now(), e) && Careful(h.Now(), e)
    }

    ghost function Now(): World
      requires Valid()
      decreases this, 1
    {
      match this
      case Boot(w) => w
      case After(h, e) => Do(h.Now(), e)
    }

    ghost function Origin(): World {
      match this
      case Boot(w) => w
      case After(h, e) => h.Origin()
    }

    /** The cache steps of the history, without the file operations around them. */
    ghost function Trace(): Run {
      match this
      case Boot(w) => Start(w.fc)
      case After(h, e) => if e.Cache? then Then(h.Trace(), e.l) else h.Trace()
    }
  }

  /** Just opened: the bitmaps on disk are those in memory, and the data of every dirty page is durable. */
  ghost predicate Booted(w: World) {
    && Opened(w.fc)
    && w.disk.pending.Nothing?
    && w.disk.dirty == w.disk.hardDirty == w.fc.dirty
    && w.fc.dirty <= w.disk.present <= w.fc.present
    && w.fc.dirty <= w.disk.hardPresent <= w.fc.present
    && |w.disk.hard| == |w.fc.blob|
    && (forall k: nat | k < |w.fc.blob| && k !in w.disk.soft :: w.disk.hard[k] == w.fc.data[k])
    && (forall k: nat | k < |w.fc.blob| && k in w.disk.soft :: w.fc.pg[k] !in w.fc.dirty)
  }

  lemma {:induction false} HistoryKeepsInv(h: History)
    requires h.Valid() && Booted(h.Origin())
    ensures DiskInv(h.Now())
  {
    if h.After? {
      HistoryKeepsInv(h.prev);
      EventKeepsDiskInv(h.prev.Now(), h.e);
    }
  }

  /** The acknowledged device of a history is the flat device with every finished write applied, in order. */
  lemma {:induction false} TraceIsARun(h: History)
    requires h.Valid() && Booted(h.Origin())
    ensures h.Trace().Valid() && h.Trace().First() == h.Origin().fc && h.Trace().End() == h.Now().fc
    ensures h.Trace().All(Disciplined)
  {
    if h.After? {
      TraceIsARun(h.prev);
    }
  }

  /** The bytes acknowledged so far. */
  ghost function Acknowledged(h: History): seq<Byte>
    requires h.Valid() && Booted(h.Origin())
  {
    TraceIsARun(h);
    h.Trace().Replayed()
  }

  /** `b` is acceptable at offset `k` after a crash: the acknowledged byte, or the one being written. */
  ghost predicate OldOrNew(h: History, k: nat, b: Byte)
    requires h.Valid() && Booted(h.Origin()) && k < |Acknowledged(h)|
  {
    var c := h.Now().fc.client;
    b == Acknowledged(h)[k] || (c.Writer? && k in c.img && b == c.img[k])
  }

  lemma AcknowledgedIsFlat(h: History)
    requires h.Valid() && Booted(h.Origin())
    ensures DiskInv(h.Now()) && Acknowledged(h) == Flat(h.Now().fc)
    ensures |Acknowledged(h)| == |h.Now().fc.blob|
  {
    HistoryKeepsInv(h);
    TraceIsARun(h);
    RunRefinesFlat(h.Trace());
  }

  /** The cache as `open` finds it: the given bitmaps and data file, nothing in memory. */
  function Reopen(s: State, data: seq<Byte>, present: set<nat>, dirty: set<nat>): State {
    State(s.pg, s.blob, data, present, dirty, map[], map[], map[], Idle)
  }

  function AfterCrash(w: World): State { Reopen(w.fc, w.fc.data, w.disk.present, w.disk.dirty) }

  function AfterPowerLoss(w: World): State { Reopen(w.fc, w.disk.hard, w.disk.hardPresent, w.disk.hardDirty) }

  /**
    A process crash at any file operation: every byte read after reopening is the acknowledged one, or the one of the
    write in flight, unless its page was evicted and is still listed; such a byte may be the hole's.  A byte the blob
    does not have yet is on a dirty page, so it will be flushed, or belongs to the write in flight or such a page.
  */
  lemma CrashKeepsAcknowledged(h: History, k: nat)
    requires h.Valid() && Booted(h.Origin()) && k < |Acknowledged(h)|
    ensures AfterCrash(h.Now()).Shape() && k < |h.Now().fc.blob|
    ensures var b := View(AfterCrash(h.Now()))[k];
      OldOrNew(h, k, b) || (h.Now().fc.pg[k] in Stale(h.Now()) && b == 0)
    ensures View(AfterCrash(h.Now()))[k] != h.Now().fc.blob[k] ==>
              || h.Now().fc.pg[k] in h.Now().disk.dirty
              || (h.Now().fc.client.Writer? && k in h.Now().fc.client.img)
              || h.Now().fc.pg[k] in Stale(h.Now())
  {
    AcknowledgedIsFlat(h);
    CrashByte(h.Now(), k);
  }

  lemma CrashByte(w: World, k: nat)
    requires DiskInv(w) && k < |w.fc.blob|
    ensures var b := View(AfterCrash(w))[k];
      && (|| b == Flat(w.fc)[k]
          || (w.fc.client.Writer? && k in w.fc.client.img && b == w.fc.client.img[k])
          || (w.fc.pg[k] in Stale(w) && b == 0))
      && (b != w.fc.blob[k] ==>
            w.fc.pg[k] in w.disk.dirty || (w.fc.client.Writer? && k in w.fc.client.img) || w.fc.pg[k] in Stale(w))
  {
    hide HardData;
    var s := w.fc;
    assert View(AfterCrash(w))[k] == At(AfterCrash(w), k);
    if s.client.Writer? {
      assert At(s, k) == WriterByte(s, k);
    }
  }

  // ----- Eviction and crashes -----

  /** Every write of a present bit went through. */
  ghost predicate BitsWritten(h: History) { h.After? ==> h.e != WritePresent(false) && BitsWritten(h.prev) }

  /** The page whose hole is punched and whose bit is being cleared. */
  function Punched(w: World): set<nat> {
    if w.disk.pending.PresentByte? && w.disk.pending.page !in w.fc.present then {w.disk.pending.page} else {}
  }

  lemma PunchedStep(w: World, e: Event)
    requires CanDo(w, e) && e != WritePresent(false) && Stale(w) <= Punched(w)
    ensures Stale(Do(w, e)) <= Punched(Do(w, e))
  {
    var v := Do(w, e);
    if e.Cache? && e.l.Evict? {
      assert v.fc == Evicted(w.fc, e.l.page);
    } else if e.Cache? {
      assert w.fc.present <= v.fc.present && v.disk.present == w.disk.present;
      assert w.disk.pending.Nothing? || (v.disk == w.disk && v.fc.present == w.fc.present);
    } else if e.WritePresent? {
      var b := w.disk.pending.page / 8;
      assert forall q | q in Stale(v) :: q / 8 != b && q in Stale(w);
    } else {
      assert Stale(v) <= Stale(w) && v.disk.pending.PresentByte? == w.disk.pending.PresentByte?;
    }
  }

  /** If every write of a present bit goes through, an evicted page is listed only while its own bit is being cleared. */
  lemma {:induction false} StaleIsPunched(h: History)
    requires h.Valid() && Booted(h.Origin()) && BitsWritten(h)
    ensures Stale(h.Now()) <= Punched(h.Now())
  {
    hide CanDo, Do, Careful, Stale, Punched;
    if h.After? {
      StaleIsPunched(h.prev);
      PunchedStep(h.prev.Now(), h.e);
    } else {
      NothingStale(h.w);
    }
  }

  lemma NothingStale(w: World)
    requires Booted(w)
    ensures Stale(w) <= Punched(w)
  {
  }

  /**
    Exactly when a byte is lost: a crash after the hole is punched and before the present bit is cleared makes every
    byte of the page read zero; every other byte survives.
  */
  lemma CrashLosesExactly(h: History, k: nat)
    requires h.Valid() && Booted(h.Origin()) && BitsWritten(h) && k < |Acknowledged(h)|
    ensures AfterCrash(h.Now()).Shape() && k < |h.Now().fc.blob|
    ensures OldOrNew(h, k, View(AfterCrash(h.Now()))[k]) <==>
              (h.Now().fc.pg[k] in Punched(h.Now()) && h.Now().fc.pg[k] in h.Now().disk.present ==> OldOrNew(h, k, 0))
    ensures h.Now().fc.pg[k] in Punched(h.Now()) && h.Now().fc.pg[k] in h.Now().disk.present ==>
              View(AfterCrash(h.Now()))[k] == 0
  {
    hide OldOrNew;
    AcknowledgedIsFlat(h);
    StaleIsPunched(h);
    CrashKeepsAcknowledged(h, k);
    if h.Now().fc.pg[k] in Punched(h.Now()) && h.Now().fc.pg[k] in h.Now().disk.present {
      PunchedReadsZero(h.Now(), k);
    }
  }

  lemma PunchedReadsZero(w: World, k: nat)
    requires DiskInv(w) && k < |w.fc.blob| && w.fc.pg[k] in Punched(w) && w.fc.pg[k] in w.disk.present
    ensures View(AfterCrash(w))[k] == 0
  {
    assert View(AfterCrash(w))[k] == At(AfterCrash(w), k);
  }

  /** With no eviction, no page is ever listed wrongly. */
  ghost predicate NeverEvicts(h: History) { h.After? ==> NoEviction(h.e) && NeverEvicts(h.prev) }

  lemma {:induction false} NothingStaleWithoutEviction(h: History)
    requires h.Valid() && Booted(h.Origin()) && NeverEvicts(h)
    ensures Stale(h.Now()) == {}
  {
    if h.After? {
      NothingStaleWithoutEviction(h.prev);
      NoEvictionStep(h.prev.Now(), h.e);
    }
  }

  lemma NoEvictionStep(w: World, e: Event)
    requires CanDo(w, e) && NoEviction(e) && Stale(w) == {}
    ensures Stale(Do(w, e)) == {}
  {
  }

  /** With no write in flight and no page listed wrongly, reopening gives a proper cache over exactly the same device. */
  lemma CrashBetweenWrites(h: History)
    requires h.Valid() && Booted(h.Origin()) && !h.Now().fc.client.Writer? && Stale(h.Now()) == {}
    ensures Opened(AfterCrash(h.Now())) && View(AfterCrash(h.Now())) == Acknowledged(h)
  {
    AcknowledgedIsFlat(h);
    var w := h.Now();
    CleanExactly(w);
    forall k: nat | k < |w.fc.blob| ensures View(AfterCrash(w))[k] == Flat(w.fc)[k] {
      CrashByte(w, k);
    }
  }

  // ----- New bytes under a clean bit -----

  /** A byte of the write in flight is in the data file of a listed page whose dirty bit is not written yet. */
  ghost predicate Unmarked(w: World, k: nat)
    requires w.fc.Shape() && k < |w.fc.blob|
  {
    && w.fc.client.Writer? && k in w.fc.client.img
    && w.fc.pg[k] in w.disk.present && w.fc.pg[k] !in w.disk.dirty
    && w.fc.data[k] == w.fc.client.img[k] && w.fc.client.img[k] != w.fc.blob[k]
  }

  /** A byte that is not zero on the blob lies under the hole of an evicted page that is still listed. */
  ghost predicate Holed(w: World, k: nat)
    requires w.fc.Shape() && k < |w.fc.blob|
  {
    w.fc.pg[k] in Stale(w) && w.fc.data[k] == 0 && w.fc.blob[k] != 0
  }

  lemma CleanExactlyAt(w: World, k: nat)
    requires DiskInv(w) && k < |w.fc.blob| && w.fc.pg[k] in w.disk.present && w.fc.pg[k] !in w.disk.dirty
    ensures w.fc.data[k] != w.fc.blob[k] <==> Unmarked(w, k) || Holed(w, k)
  {
    hide PartOnOldBlob, HardData;
    var s := w.fc;
    if s.client.Writer? {
      assert At(s, k) == WriterByte(s, k);
    }
  }

  lemma CleanExactly(w: World)
    requires DiskInv(w)
    ensures AfterCrash(w).Shape()
    ensures CleanIsBlob(AfterCrash(w)) <==> forall k: nat | k < |w.fc.blob| :: !Unmarked(w, k) && !Holed(w, k)
  {
    hide DiskInv;
    DiskShape(w);
    forall k: nat | k < |w.fc.blob| && w.fc.pg[k] in w.disk.present && w.fc.pg[k] !in w.disk.dirty
      ensures w.fc.data[k] != w.fc.blob[k] <==> Unmarked(w, k) || Holed(w, k)
    {
      CleanExactlyAt(w, k);
    }
  }

  lemma DiskShape(w: World)
    requires DiskInv(w)
    ensures w.fc.Shape() && AfterCrash(w).Shape()
    ensures forall q | q in Stale(w) :: q !in w.disk.dirty
  {
  }

  /**
    Exactly when every clean page found after a crash is in step with the blob: unless the crash came between the data
    write and the dirty byte of a write that changed something, or over the hole of a page still listed.
  */
  lemma CrashLeavesCleanPagesExactly(h: History)
    requires h.Valid() && Booted(h.Origin())
    ensures AfterCrash(h.Now()).Shape()
    ensures CleanIsBlob(AfterCrash(h.Now())) <==>
              forall k: nat | k < |h.Now().fc.blob| :: !Unmarked(h.Now(), k) && !Holed(h.Now(), k)
  {
    AcknowledgedIsFlat(h);
    CleanExactly(h.Now());
  }

  // ----- Power loss -----

  /**
    A power loss: whenever a page's dirty bit is durable its durable data holds every acknowledged byte, and
    once a write is acknowledged both its bits are durable, so the page survives.
  */
  lemma PowerLossKeepsDirtyPages(h: History, k: nat)
    requires h.Valid() && Booted(h.Origin()) && k < |Acknowledged(h)|
    ensures AfterPowerLoss(h.Now()).Shape() && k < |h.Now().fc.blob| == |h.Now().disk.hard|
    ensures h.Now().fc.pg[k] in h.Now().disk.hardDirty ==> OldOrNew(h, k, h.Now().disk.hard[k])
    ensures h.Now().fc.pg[k] in h.Now().fc.dirty && Settled(h.Now().disk, h.Now().fc.pg[k]) ==>
              && h.Now().fc.pg[k] in h.Now().disk.hardDirty
              && h.Now().fc.pg[k] in h.Now().disk.hardPresent
              && OldOrNew(h, k, View(AfterPowerLoss(h.Now()))[k])
  {
    AcknowledgedIsFlat(h);
    if h.Now().fc.pg[k] in h.Now().disk.hardDirty {
      HardByte(h.Now(), k);
    }
  }

  lemma HardByte(w: World, k: nat)
    requires DiskInv(w) && k < |w.fc.blob| && w.fc.pg[k] in w.disk.hardDirty
    ensures var b := w.disk.hard[k];
      b == Flat(w.fc)[k] || (w.fc.client.Writer? && k in w.fc.client.img && b == w.fc.client.img[k])
  {
    hide StaleBytes, PartOnOldBlob;
    var s := w.fc;
    if s.client.Writer? {
      assert At(s, k) == WriterByte(s, k);
    }
  }

  /** A byte at risk: its page is durably listed as clean, and its data is not synced, or it has been evicted. */
  predicate AtRisk(w: World, k: nat)
    requires w.fc.Shape() && k < |w.fc.blob|
  {
    && w.fc.pg[k] in w.disk.hardPresent && w.fc.pg[k] !in w.disk.hardDirty
    && (k in w.disk.soft || w.fc.pg[k] !in w.fc.present)
  }

  /** A byte that is not at risk is, after a power loss, the acknowledged one or the one of the write in flight. */
  lemma PowerLossLosesOnly(h: History, k: nat)
    requires h.Valid() && Booted(h.Origin()) && k < |Acknowledged(h)|
    ensures AfterPowerLoss(h.Now()).Shape() && k < |h.Now().fc.blob| == |h.Now().disk.hard|
    ensures !AtRisk(h.Now(), k) ==> OldOrNew(h, k, View(AfterPowerLoss(h.Now()))[k])
    ensures AtRisk(h.Now(), k) ==> View(AfterPowerLoss(h.Now()))[k] == h.Now().disk.hard[k]
  {
    AcknowledgedIsFlat(h);
    var w := h.Now();
    if w.fc.pg[k] in w.disk.hardDirty && w.fc.pg[k] in w.disk.hardPresent {
      HardByte(w, k);
    } else if !AtRisk(w, k) {
      SafeByte(w, k);
    }
  }

  lemma SafeByte(w: World, k: nat)
    requires DiskInv(w) && k < |w.fc.blob| && !AtRisk(w, k)
    requires !(w.fc.pg[k] in w.disk.hardDirty && w.fc.pg[k] in w.disk.hardPresent)
    ensures var b := View(AfterPowerLoss(w))[k];
      b == Flat(w.fc)[k] || (w.fc.client.Writer? && k in w.fc.client.img && b == w.fc.client.img[k])
  {
    hide StaleBytes;
    var s := w.fc;
    assert View(AfterPowerLoss(w))[k] == At(AfterPowerLoss(w), k);
    if s.client.Writer? {
      assert At(s, k) == WriterByte(s, k);
    }
  }

  // ----- When everything is written back -----

  /** The kernel has written back the bitmap bytes below `n`. */
  ghost predicate BackUpTo(h: History, w: World, n: nat) {
    && h.Valid() && h.Now().fc == w.fc && h.Now().disk.present == w.disk.present && h.Now().disk.dirty == w.disk.dirty
    && h.Now().disk.hard == w.fc.data && h.Now().fc.Shape()
    && (forall q: nat | q / 8 < n ::
          (q in h.Now().disk.hardPresent <==> q in w.disk.present) && (q in h.Now().disk.hardDirty <==> q in w.disk.dirty))
    && (forall q | q in h.Now().disk.hardPresent :: q in w.disk.hardPresent || q in w.disk.present)
    && (forall q | q in h.Now().disk.hardDirty :: q in w.disk.hardDirty || q in w.disk.dirty)
  }

  lemma {:induction false} BackByte(h: History, w: World, n: nat) returns (g: History)
    requires BackUpTo(h, w, n)
    ensures BackUpTo(g, w, n + 1)
  {
    g := After(After(h, KernelPresent(n)), KernelDirty(n));
  }

  function Positions(n: nat): (s: set<nat>)
    ensures forall k: nat :: k in s <==> k < n
  {
    if n == 0 then {} else Positions(n - 1) + {n - 1}
  }

  lemma BackData(h: History) returns (g: History)
    requires h.Valid() && DiskInv(h.Now())
    ensures BackUpTo(g, h.Now(), 0)
  {
    var w := h.Now();
    var keys := Positions(|w.fc.data|);
    g := After(h, KernelData(keys));
    assert Overlay(w.disk.hard, Cut(w.fc.data, keys)) == w.fc.data;
  }

  lemma {:induction false} BackAll(h: History, w: World, n: nat) returns (g: History)
    requires BackUpTo(h, w, 0)
    ensures BackUpTo(g, w, n)
  {
    hide BackUpTo;
    if n == 0 { return h; }
    g := BackAll(h, w, n - 1);
    g := BackByte(g, w, n - 1);
  }

  lemma {:induction false} Bound(pages: set<nat>) returns (n: nat)
    ensures forall q | q in pages :: q / 8 < n
  {
    if pages == {} { return 0; }
    var p :| p in pages;
    var m := Bound(pages - {p});
    n := if m <= p / 8 then p / 8 + 1 else m;
    forall q | q in pages ensures q / 8 < n { assert q == p || q in pages - {p}; }
  }

  /** The kernel alone can make everything durable, and then a power loss is no worse than a crash. */
  lemma WrittenBackIsDurable(h: History) returns (g: History)
    requires h.Valid() && Booted(h.Origin())
    ensures g.Valid() && AfterPowerLoss(g.Now()) == AfterCrash(g.Now()) == AfterCrash(h.Now())
  {
    HistoryKeepsInv(h);
    var w := h.Now();
    var n := Bound(w.disk.present + w.disk.hardPresent + w.disk.dirty + w.disk.hardDirty);
    g := BackData(h);
    g := BackAll(g, w, n);
    BackIsCrash(g, w, n);
  }

  lemma BackIsCrash(g: History, w: World, n: nat)
    requires BackUpTo(g, w, n) && forall q | q in w.disk.present + w.disk.hardPresent + w.disk.dirty + w.disk.hardDirty :: q / 8 < n
    ensures AfterPowerLoss(g.Now()) == AfterCrash(g.Now()) == AfterCrash(w)
  {
    var d := g.Now().disk;
    forall q: nat ensures (q in d.hardPresent <==> q in d.present) && (q in d.hardDirty <==> q in d.dirty) {
      if q in d.hardPresent + d.present + d.hardDirty + d.dirty {
        assert q in w.disk.present + w.disk.hardPresent + w.disk.dirty + w.disk.hardDirty;
      }
    }
  }

  // ----- Where the guarantees end -----

  ghost predicate Steps(w: World, e: Event, v: World) { CanDo(w, e) && Careful(w, e) && v == Do(w, e) }

  /** One more event. */
  lemma Grow(h: History, e: Event, v: World)
    requires h.Valid() && Booted(h.Origin()) && Steps(h.Now(), e, v)
    ensures After(h, e).Valid() && After(h, e).Origin() == h.Origin() && After(h, e).Now() == v
  {
  }

  /** One byte holding 2 on the blob, freshly opened; `data` is what the data file holds. */
  function OneByteWorld(data: Byte, present: set<nat>): World {
    World(OneByte(data, 2, present, {}, map[], map[]), Disk([data], {}, present, {}, present, {}, Nothing))
  }

  lemma OneByteBooted(data: Byte, present: set<nat>)
    requires present == {} || (present == {0} && data == 2)
    ensures Boot(OneByteWorld(data, present)).Valid() && Booted(OneByteWorld(data, present))
  {
  }

  /** What was acknowledged, read off the last world. */
  lemma AcknowledgedByte(h: History, b: Byte)
    requires h.Valid() && Booted(h.Origin()) && h.Now().fc.Shape() && Flat(h.Now().fc) == [b]
    ensures Acknowledged(h) == [b]
  {
    hide DiskInv, Flat;
    AcknowledgedIsFlat(h);
  }

  function Holey(): World {
    World(OneByte(0, 2, {}, {}, map[], map[]), Disk([2], {0}, {0}, {}, {0}, {}, PresentByte(0)))
  }

  lemma EvictSteps()
    ensures Steps(OneByteWorld(2, {0}), Cache(Evict(0)), Holey())
    ensures Holey().fc.Shape() && Flat(Holey().fc) == [2]
    ensures AfterCrash(Holey()).Shape() && View(AfterCrash(Holey())) == [0]
  {
    OneByteFacts(2, 2);
    assert {} + {0} == {0};
    EvictByte(OneByteWorld(2, {0}).fc, 2);
  }

  /** Eviction punches the hole before it clears the present bit: a crash in between reads zeros. */
  lemma CrashDuringEvictionLosesAByte() returns (h: History)
    ensures h.Valid() && Booted(h.Origin()) && Acknowledged(h) == [2]
    ensures AfterCrash(h.Now()).Shape() && View(AfterCrash(h.Now())) == [0]
  {
    hide Booted, Steps, Flat, View, AfterCrash;
    OneByteBooted(2, {0});
    EvictSteps();
    h := Boot(OneByteWorld(2, {0}));
    Grow(h, Cache(Evict(0)), Holey());
    h := After(h, Cache(Evict(0)));
    AcknowledgedByte(h, 2);
  }

  /** The world in which 3 is being written, with or without its bytes in the data file. */
  function Writing(put: bool): World {
    var c := Writer(map[0 := 3], {}, if put then {0} else {}, [2]);
    World(OneByte(if put then 3 else 2, 2, {0}, {}, map[], map[]).(client := c),
          Disk([2], if put then {0} else {}, {0}, {}, {0}, {}, Nothing))
  }

  lemma BeginSteps()
    ensures Steps(OneByteWorld(2, {0}), Cache(BeginWrite(map[0 := 3])), Writing(false))
  {
    assert View(OneByteWorld(2, {0}).fc) == [2];
  }

  lemma PutSteps()
    ensures Steps(Writing(false), Cache(PutData(0, {0})), Writing(true))
  {
    OneByteFacts(2, 3);
    assert {} + {0} == {0};
  }

  lemma WritingAfterCrash()
    ensures Writing(true).fc.Shape() && Flat(Writing(true).fc) == [2]
    ensures var s := AfterCrash(Writing(true));
      s.Shape() && View(s) == [3] && !CleanIsBlob(s) && CanEvict(s, 0) && View(Evicted(s, 0)) == [2]
  {
    var s := AfterCrash(Writing(true));
    assert s.data[0] != s.blob[0] && s.pg[0] in s.present;
  }

  /**
    A write to a clean page reaches the data file before any dirty bit: a crash in between reopens the page as
    clean with bytes the blob does not have.  The unacknowledged byte reads as new until an eviction, which
    turns it back.
  */
  lemma CrashDuringWriteLeavesUnflushedCleanPage() returns (h: History)
    ensures h.Valid() && Booted(h.Origin()) && Acknowledged(h) == [2]
    ensures var s := AfterCrash(h.Now());
      s.Shape() && View(s) == [3] && !CleanIsBlob(s) && CanEvict(s, 0) && View(Evicted(s, 0)) == [2]
  {
    hide Booted, Steps, Flat, View, AfterCrash, CleanIsBlob, CanEvict, Evicted;
    OneByteBooted(2, {0});
    BeginSteps();
    PutSteps();
    WritingAfterCrash();
    h := Boot(OneByteWorld(2, {0}));
    Grow(h, Cache(BeginWrite(map[0 := 3])), Writing(false));
    h := After(h, Cache(BeginWrite(map[0 := 3])));
    Grow(h, Cache(PutData(0, {0})), Writing(true));
    h := After(h, Cache(PutData(0, {0})));
    AcknowledgedByte(h, 2);
  }

  /** A fetch of the page on its way: begun, fetched, put in the data file. */
  function Fetching(img: Image, put: set<nat>, data: Byte): World {
    World(OneByte(data, 2, {}, {}, map[], map[7 := Fetch(0, img, put)]), Disk([9], put, {}, {}, {}, {}, Nothing))
  }

  lemma FetchSteps()
    ensures Steps(OneByteWorld(9, {}), Cache(FetchStart(7, 0)), Fetching(map[], {}, 9))
    ensures Steps(Fetching(map[], {}, 9), Cache(FetchPart(7, {0})), Fetching(map[0 := 2], {}, 9))
  {
    OneByteFacts(2, 2);
    var none: Image := map[];
    assert none + Cut([2], {0}) == map[0 := 2];
    assert Fetching(map[], {}, 9).fc.fetches[7 := Fetch(0, map[0 := 2], {})] == Fetching(map[0 := 2], {}, 9).fc.fetches;
  }

  lemma FetchPutSteps()
    ensures Steps(Fetching(map[0 := 2], {}, 9), Cache(FetchPut(7, {0})), Fetching(map[0 := 2], {0}, 2))
  {
    OneByteFacts(9, 2);
    assert {} + {0} == {0};
    assert Fetching(map[0 := 2], {}, 9).fc.fetches[7 := Fetch(0, map[0 := 2], {0})] == Fetching(map[0 := 2], {0}, 2).fc.fetches;
  }

  /** The page is present; its bit is in memory, then in the file, then durable. */
  function Warmed(pending: Pending, file: set<nat>, durable: set<nat>): World {
    World(OneByte(2, 2, {0}, {}, map[], map[]), Disk([9], {0}, file, {}, durable, {}, pending))
  }

  lemma FetchMarkSteps()
    ensures Steps(Fetching(map[0 := 2], {0}, 2), Cache(FetchMark(7)), Warmed(PresentByte(0), {}, {}))
  {
    OneByteFacts(2, 2);
    assert Fetching(map[0 := 2], {0}, 2).fc.fetches - {7} == map[] && {} + {0} == {0};
  }

  lemma BitSteps()
    ensures Steps(Warmed(PresentByte(0), {}, {}), WritePresent(true), Warmed(Nothing, {0}, {}))
    ensures Steps(Warmed(Nothing, {0}, {}), KernelPresent(0), Warmed(Nothing, {0}, {0}))
  {
    assert ByteOf({}, {0}, 0) == {0};
  }

  lemma WarmedAfterPowerLoss()
    ensures var w := Warmed(Nothing, {0}, {0});
      && w.fc.Shape() && Flat(w.fc) == [2] && |w.fc.blob| == 1 && AtRisk(w, 0)
      && AfterPowerLoss(w).Shape() && View(AfterPowerLoss(w)) == [9]
  {
  }

  /**
    A warmed page is written without a data sync: if its present bit happens to become durable first, a power
    loss reopens it as present over the stale data file.
  */
  lemma PowerLossCorruptsWarmedPage() returns (h: History)
    ensures h.Valid() && Booted(h.Origin()) && Acknowledged(h) == [2]
    ensures h.Now().fc.Shape() && |h.Now().fc.blob| == 1 && AtRisk(h.Now(), 0)
    ensures AfterPowerLoss(h.Now()).Shape() && View(AfterPowerLoss(h.Now())) == [9]
  {
    hide Booted, Steps, Flat, View, AfterPowerLoss, AtRisk;
    OneByteBooted(9, {});
    FetchSteps();
    FetchPutSteps();
    FetchMarkSteps();
    BitSteps();
    WarmedAfterPowerLoss();
    h := Boot(OneByteWorld(9, {}));
    Grow(h, Cache(FetchStart(7, 0)), Fetching(map[], {}, 9));
    h := After(h, Cache(FetchStart(7, 0)));
    Grow(h, Cache(FetchPart(7, {0})), Fetching(map[0 := 2], {}, 9));
    h := After(h, Cache(FetchPart(7, {0})));
    Grow(h, Cache(FetchPut(7, {0})), Fetching(map[0 := 2], {0}, 2));
    h := After(h, Cache(FetchPut(7, {0})));
    Grow(h, Cache(FetchMark(7)), Warmed(PresentByte(0), {}, {}));
    h := After(h, Cache(FetchMark(7)));
    Grow(h, WritePresent(true), Warmed(Nothing, {0}, {}));
    h := After(h, WritePresent(true));
    Grow(h, KernelPresent(0), Warmed(Nothing, {0}, {0}));
    h := After(h, KernelPresent(0));
    AcknowledgedByte(h, 2);
  }
}
