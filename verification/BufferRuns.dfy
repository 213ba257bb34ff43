/**
  Whole runs of the memory buffer, with and without eviction, and the runs that go wrong when a hypothesis is
  dropped.
*/
module BufferRuns {
  import opened Store
  import opened Buffer
  import opened BufferRefinement

  datatype Run = Start(s: State) | Then(prev: Run, l: Label) {

    ghost predicate Valid()
      decreases this, 0
    {
      match this
      case Start(s) => true
      case Then(r, l) => r.Valid() && Enabled(r.End(), l)
    }

    ghost function End(): State
      requires Valid()
      decreases this, 1
    {
      match this
      case Start(s) => s
      case Then(r, l) => Next(r.End(), l)
    }

    ghost function First(): State {
      match this
      case Start(s) => s
      case Then(r, l) => r.First()
    }

    ghost predicate All(h: (State, Label) -> bool)
      requires Valid()
    {
      match this
      case Start(s) => true
      case Then(r, l) => r.All(h) && h(r.End(), l)
    }

    /** The flat device: the first state's content with every chunk write applied, in order. */
    ghost function Replayed(): seq<Byte>
      requires First().Shape()
    {
      match this
      case Start(s) => View(s)
      case Then(r, l) => if l.Apply? then Overlay(r.Replayed(), l.img) else r.Replayed()
    }

    /** The uploads in flight that were begun during the run. */
    ghost function Begun(): set<nat> {
      match this
      case Start(s) => {}
      case Then(r, l) => BegunAfter(r.Begun(), l)
    }

    /** The pages of which an upload was begun and finished during the run. */
    ghost function Flushed(): set<nat>
      requires Valid()
    {
      match this
      case Start(s) => {}
      case Then(r, l) =>
        if l.Finish? && l.id in r.Begun() then r.Flushed() + {r.End().flights[l.id].page} else r.Flushed()
    }
  }

  /** A buffer with nothing resident and nothing in flight. */
  ghost predicate Empty(s: State) {
    |s.inner| == |s.pg| && s.pages == map[] && s.flights == map[] && s.loads == map[]
  }

  /** With `max_cached_pages = 0`: any number of clients, any flushes, overlapping or not. */
  lemma {:induction false} RunRefinesFlat(r: Run)
    requires r.Valid() && Empty(r.First()) && r.All(NoEviction)
    ensures Inv(r.End()) && View(r.End()) == r.Replayed()
  {
    if r.Then? {
      RunRefinesFlat(r.prev);
      StepRefines(r.prev.End(), r.l);
    }
  }

  /** Every chunk served is the flat array after the chunk writes applied so far. */
  lemma ServeReturnsFlat(r: Run, p: nat, keys: set<nat>)
    requires r.Valid() && Empty(r.First()) && r.All(NoEviction) && Enabled(r.End(), Serve(p, keys))
    ensures Served(r.End(), p, keys) == Cut(r.Replayed(), keys)
  {
    RunRefinesFlat(r);
    StepRefines(r.End(), Serve(p, keys));
  }

  /** One client operation at a time, a background flush, and eviction. */
  lemma {:induction false} SerialRunRefinesFlat(r: Run)
    requires r.Valid() && Empty(r.First()) && r.All(NoOverlap) && r.All(Serial)
    ensures SerialInv(r.End()) && View(r.End()) == r.Replayed()
  {
    if r.Then? {
      SerialRunRefinesFlat(r.prev);
      SerialStepRefines(r.prev.End(), r.l);
    }
  }

  lemma SerialServeReturnsFlat(r: Run, p: nat, keys: set<nat>)
    requires r.Valid() && Empty(r.First()) && r.All(NoOverlap) && r.All(Serial) && Enabled(r.End(), Serve(p, keys))
    ensures Served(r.End(), p, keys) == Cut(r.Replayed(), keys)
  {
    SerialRunRefinesFlat(r);
    SerialStepRefines(r.End(), Serve(p, keys));
  }

  /** A byte the inner store does not have yet is on a page that is resident and dirty, so it is never lost. */
  lemma StaleInnerIsDirty(r: Run, k: nat)
    requires r.Valid() && Empty(r.First()) && r.All(NoOverlap) && r.All(Serial) && k < |r.End().inner|
    ensures r.End().Shape()
    ensures r.End().inner[k] != View(r.End())[k] ==> r.End().Dirty(r.End().pg[k])
  {
    SerialRunRefinesFlat(r);
    assert View(r.End())[k] == At(r.End(), k);
  }

  // ----- Flushing -----

  predicate NotAWrite(s: State, l: Label) { !l.Apply? }

  ghost function DirtyPages(s: State): set<nat> { set p | p in s.pages && s.pages[p].dirty }

  /** These flights were snapshotted from their pages as they still are. */
  ghost predicate FlightsCurrent(s: State, ids: set<nat>) {
    forall id | id in ids ::
      && id in s.flights
      && s.flights[id].page in s.pages && s.flights[id].seqNo == s.pages[s.flights[id].page].seqNo
  }

  /** The flights of `ids` after a step, if those that begin are counted in. */
  function BegunAfter(ids: set<nat>, l: Label): set<nat> {
    if l.Snapshot? then ids + {l.id} else if l.Finish? || l.Fail? then ids - {l.id} else ids
  }

  /**
    With no write going on, finishing an upload begun in the run always cleans its page.  Nothing else does, but for
    uploads that were in flight at the start and are still current.
  */
  lemma {:induction false} FlushProgress(r: Run)
    requires r.Valid() && SerialInv(r.First()) && r.All(NoOverlap) && r.All(Serial) && r.All(NotAWrite)
    ensures DirtyPages(r.End()) <= DirtyPages(r.First()) - r.Flushed()
    ensures r.First().flights == map[] ==>
              DirtyPages(r.End()) == DirtyPages(r.First()) - r.Flushed() && r.End().flights.Keys <= r.Begun()
    ensures FlightsCurrent(r.End(), r.Begun())
    ensures SerialInv(r.End()) && View(r.End()) == View(r.First())
  {
    hide SerialInv, Enabled, Next, FlightsCurrent, DirtyPages, NoOverlap;
    if r.Then? {
      FlushProgress(r.prev);
      if r.l.Finish? { FinishedHere(r); }
      SerialStepRefines(r.prev.End(), r.l);
      FlushStep(r.prev.End(), r.l, r.prev.Begun());
    } else {
      NoneBegun(r.First());
    }
  }

  lemma FinishedHere(r: Run)
    requires r.Valid() && r.Then? && r.l.Finish?
    ensures r.l.id in r.prev.End().flights
  {
  }

  lemma NoneBegun(s: State)
    ensures FlightsCurrent(s, {})
  {
  }

  lemma FlushStep(s: State, l: Label, ids: set<nat>)
    requires SerialInv(s) && Enabled(s, l) && !l.Apply? && FlightsCurrent(s, ids)
    ensures FlightsCurrent(Next(s, l), BegunAfter(ids, l))
    ensures DirtyPages(Next(s, l)) <= DirtyPages(s)
    ensures || DirtyPages(Next(s, l)) == DirtyPages(s)
            || (l.Finish? && DirtyPages(Next(s, l)) == DirtyPages(s) - {s.flights[l.id].page})
    ensures l.Finish? && l.id in ids ==> DirtyPages(Next(s, l)) == DirtyPages(s) - {s.flights[l.id].page}
    ensures s.flights.Keys <= ids ==> Next(s, l).flights.Keys <= BegunAfter(ids, l)
  {
    hide SerialInv;
    if l.Finish? {
      FinishDirty(s, l.id, ids);
    } else {
      FlightsDirty(s);
      QuietDirty(s, l, ids);
    }
  }

  lemma FlightsDirty(s: State)
    requires SerialInv(s)
    ensures forall id | id in s.flights :: s.Dirty(s.flights[id].page)
  {
  }

  lemma FinishDirty(s: State, id: nat, ids: set<nat>)
    requires Enabled(s, Finish(id)) && FlightsCurrent(s, ids)
    ensures FlightsCurrent(Finished(s, id), ids - {id})
    ensures DirtyPages(Finished(s, id)) == DirtyPages(s) || DirtyPages(Finished(s, id)) == DirtyPages(s) - {s.flights[id].page}
    ensures id in ids ==> DirtyPages(Finished(s, id)) == DirtyPages(s) - {s.flights[id].page}
  {
  }

  lemma QuietDirty(s: State, l: Label, ids: set<nat>)
    requires Enabled(s, l) && !l.Apply? && !l.Finish? && FlightsCurrent(s, ids)
    requires forall id | id in s.flights :: s.Dirty(s.flights[id].page)
    ensures FlightsCurrent(Next(s, l), BegunAfter(ids, l)) && DirtyPages(Next(s, l)) == DirtyPages(s)
  {
  }

  /**
    A flush that uploaded every page that was dirty when it began leaves nothing dirty, and the inner store
    equal to the device, whatever order the page writes completed in and whatever uploads were in flight before.
  */
  lemma FlushDrains(r: Run)
    requires r.Valid() && SerialInv(r.First()) && r.All(NoOverlap) && r.All(Serial) && r.All(NotAWrite)
    requires DirtyPages(r.First()) <= r.Flushed()
    ensures DirtyPages(r.End()) == {} && r.End().inner == View(r.First())
  {
    FlushProgress(r);
    var s := r.End();
    forall k: nat | k < |s.inner| ensures s.inner[k] == View(s)[k] {
      assert s.pg[k] in s.pages ==> s.pg[k] !in DirtyPages(s);
      assert View(s)[k] == At(s, k);
    }
  }

  // ----- What goes wrong without the hypotheses -----

  ghost predicate Moves(s: State, l: Label, t: State) { Enabled(s, l) && t == Next(s, l) }

  /** `r` is a run of an empty buffer, within the hypothesis `h`, that ends in `t` with `v` written. */
  ghost predicate Reaches(r: Run, h: (State, Label) -> bool, t: State, v: seq<Byte>) {
    r.Valid() && Empty(r.First()) && r.All(h) && r.End() == t && r.Replayed() == v
  }

  lemma Go(r: Run, h: (State, Label) -> bool, s: State, v: seq<Byte>, l: Label, t: State) returns (q: Run)
    requires Reaches(r, h, s, v) && Moves(s, l, t) && h(s, l) && !l.Apply?
    ensures Reaches(q, h, t, v)
  {
    q := Then(r, l);
  }

  lemma GoApply(r: Run, h: (State, Label) -> bool, s: State, d: Byte, v: Byte, t: State) returns (q: Run)
    requires Reaches(r, h, s, [d]) && Moves(s, Apply(0, map[0 := v]), t) && h(s, Apply(0, map[0 := v]))
    ensures Reaches(q, h, t, [v])
  {
    q := Then(r, Apply(0, map[0 := v]));
    OneByteFacts(d, v);
  }

  /** A device of one byte and one page. */
  function OneByte(inner: Byte, pages: map<nat, Page>, counter: nat, flights: map<nat, Flight>, loads: map<nat, Load>): State {
    State([0], [inner], pages, counter, flights, loads)
  }

  function Resident(v: Byte, dirty: bool, seqNo: nat): map<nat, Page> { map[0 := Page(map[0 := v], dirty, seqNo)] }

  lemma OneByteFacts(d: Byte, v: Byte)
    ensures PageKeys([0], 0) == {0} && Overlay([d], Restrict(map[0 := v], {0})) == [v] == Overlay([d], map[0 := v])
    ensures Cut([d], {0}) == map[0 := d]
  {
    assert Restrict(map[0 := v], {0}) == map[0 := v];
  }

  lemma EmptyByte(h: (State, Label) -> bool, inner: Byte) returns (r: Run)
    ensures Reaches(r, h, OneByte(inner, map[], 0, map[], map[]), [inner])
  {
    r := Start(OneByte(inner, map[], 0, map[], map[]));
  }

  lemma LoadByte(s: State, id: nat, d: Byte)
    requires s.Shape() && s.pg == [0] && s.inner == [d] && id !in s.loads && 0 !in s.pages
    ensures Moves(s, LoadStart(id, 0), s.(loads := s.loads[id := Load(0, map[])]))
    ensures Moves(s.(loads := s.loads[id := Load(0, map[])]), LoadPart(id, {0}), s.(loads := s.loads[id := Load(0, map[0 := d])]))
  {
    OneByteFacts(d, d);
    var none: Image := map[];
    assert none + Cut([d], {0}) == map[0 := d];
    assert s.loads[id := Load(0, none)][id := Load(0, map[0 := d])] == s.loads[id := Load(0, map[0 := d])];
  }

  lemma InsertByte(s: State, id: nat, d: Byte)
    requires s.Shape() && s.pg == [0] && id in s.loads && s.loads[id] == Load(0, map[0 := d]) && s.pages == map[]
    ensures Moves(s, LoadInsert(id), s.(pages := Resident(d, false, s.counter + 1), counter := s.counter + 1, loads := s.loads - {id}))
  {
    OneByteFacts(d, d);
  }

  lemma ApplyByte(s: State, d: Byte, dirty: bool, n: nat, v: Byte)
    requires s.Shape() && s.pg == [0] && s.pages == Resident(d, dirty, n)
    ensures Moves(s, Apply(0, map[0 := v]), s.(pages := Resident(v, true, s.counter + 1), counter := s.counter + 1))
  {
    OneByteFacts(d, v);
    var a: Image, b: Image := map[0 := d], map[0 := v];
    assert a + b == b;
  }

  lemma SnapshotByte(s: State, id: nat, v: Byte, n: nat)
    requires s.Shape() && s.pages == Resident(v, true, n) && id !in s.flights
    ensures Moves(s, Snapshot(id, 0), s.(flights := s.flights[id := Flight(0, n, map[0 := v], {})]))
  {
  }

  lemma LandByte(s: State, id: nat, d: Byte, v: Byte)
    requires s.Shape() && s.pg == [0] && s.inner == [d]
    requires id in s.flights && s.flights[id].img == map[0 := v] && s.flights[id].landed == {}
    ensures Moves(s, Land(id, {0}), s.(inner := [v], flights := s.flights[id := s.flights[id].(landed := {0})]))
  {
    OneByteFacts(d, v);
    assert {} + {0} == {0};
  }

  lemma FinishByte(s: State, id: nat, v: Byte, n: nat)
    requires s.Shape() && s.pages == Resident(v, true, n)
    requires id in s.flights && s.flights[id] == Flight(0, n, map[0 := v], {0})
    ensures Moves(s, Finish(id), s.(pages := Resident(v, false, n), flights := s.flights - {id}))
  {
  }

  lemma EvictByte(s: State, v: Byte, n: nat)
    requires s.Shape() && s.pages == Resident(v, false, n)
    ensures Moves(s, Evict(0), s.(pages := map[]))
  {
    assert Resident(v, false, n) - {0} == map[];
  }

  const OLDER := Flight(0, 2, map[0 := 1], {})
  const NEWER := Flight(0, 3, map[0 := 2], {})

  /** The page is loaded, written with 1, its upload begins; then it is written with 2. */
  lemma OlderUploadBegins() returns (r: Run)
    ensures Reaches(r, Serial, OneByte(0, Resident(2, true, 3), 3, map[1 := OLDER], map[]), [2])
  {
    hide Reaches, Moves;
    r := EmptyByte(Serial, 0);
    var s0 := OneByte(0, map[], 0, map[], map[]);
    var s1 := s0.(loads := map[5 := Load(0, map[])]);
    var s2 := s0.(loads := map[5 := Load(0, map[0 := 0])]);
    var s3 := OneByte(0, Resident(0, false, 1), 1, map[], map[]);
    var s4 := OneByte(0, Resident(1, true, 2), 2, map[], map[]);
    var s5 := OneByte(0, Resident(1, true, 2), 2, map[1 := OLDER], map[]);
    LoadByte(s0, 5, 0);
    r := Go(r, Serial, s0, [0], LoadStart(5, 0), s1);
    r := Go(r, Serial, s1, [0], LoadPart(5, {0}), s2);
    InsertByte(s2, 5, 0);
    assert s2.loads - {5} == map[];
    r := Go(r, Serial, s2, [0], LoadInsert(5), s3);
    ApplyByte(s3, 0, false, 1, 1);
    r := GoApply(r, Serial, s3, 0, 1, s4);
    SnapshotByte(s4, 1, 1, 2);
    r := Go(r, Serial, s4, [1], Snapshot(1, 0), s5);
    ApplyByte(s5, 1, true, 2, 2);
    r := GoApply(r, Serial, s5, 1, 2, OneByte(0, Resident(2, true, 3), 3, map[1 := OLDER], map[]));
  }

  lemma OlderUploadLandsLast() returns (r: Run)
    ensures Reaches(r, Serial, OneByte(1, map[], 3, map[1 := OLDER.(landed := {0})], map[]), [2])
  {
    hide Reaches, Moves;
    r := OlderUploadBegins();
    var s0 := OneByte(0, Resident(2, true, 3), 3, map[1 := OLDER], map[]);
    var s1 := OneByte(0, Resident(2, true, 3), 3, map[1 := OLDER, 2 := NEWER], map[]);
    var s2 := OneByte(2, Resident(2, true, 3), 3, map[1 := OLDER, 2 := NEWER.(landed := {0})], map[]);
    var s3 := OneByte(2, Resident(2, false, 3), 3, map[1 := OLDER], map[]);
    var s4 := OneByte(1, Resident(2, false, 3), 3, map[1 := OLDER.(landed := {0})], map[]);
    SnapshotByte(s0, 2, 2, 3);
    r := Go(r, Serial, s0, [2], Snapshot(2, 0), s1);
    LandByte(s1, 2, 0, 2);
    r := Go(r, Serial, s1, [2], Land(2, {0}), s2);
    FinishByte(s2, 2, 2, 3);
    assert s2.flights - {2} == s3.flights;
    r := Go(r, Serial, s2, [2], Finish(2), s3);
    LandByte(s3, 1, 2, 1);
    r := Go(r, Serial, s3, [2], Land(1, {0}), s4);
    EvictByte(s4, 2, 3);
    r := Go(r, Serial, s4, [2], Evict(0), s4.(pages := map[]));
  }

  /**
    A second flush of the page runs to its end while the upload of an older value is in flight.  The older value lands
    last on a page already marked clean, and an eviction brings it back.
  */
  lemma OverlappingFlushesLoseAWrite() returns (r: Run)
    ensures r.Valid() && Empty(r.First()) && r.All(Serial)
    ensures r.Replayed() == [2] && r.End().Shape() && View(r.End()) == [1]
  {
    r := OlderUploadLandsLast();
  }

  /** Two clients load the page; the first load is installed. */
  lemma TwoLoads() returns (r: Run)
    ensures Reaches(r, NoOverlap, OneByte(0, Resident(0, false, 1), 1, map[], map[7 := Load(0, map[0 := 0])]), [0])
  {
    hide Reaches, Moves;
    r := EmptyByte(NoOverlap, 0);
    var s0 := OneByte(0, map[], 0, map[], map[]);
    var s2 := s0.(loads := map[5 := Load(0, map[0 := 0])]);
    var s4 := s0.(loads := s2.loads[7 := Load(0, map[0 := 0])]);
    LoadByte(s0, 5, 0);
    r := Go(r, NoOverlap, s0, [0], LoadStart(5, 0), s0.(loads := s0.loads[5 := Load(0, map[])]));
    r := Go(r, NoOverlap, s0.(loads := s0.loads[5 := Load(0, map[])]), [0], LoadPart(5, {0}), s2);
    LoadByte(s2, 7, 0);
    r := Go(r, NoOverlap, s2, [0], LoadStart(7, 0), s2.(loads := s2.loads[7 := Load(0, map[])]));
    r := Go(r, NoOverlap, s2.(loads := s2.loads[7 := Load(0, map[])]), [0], LoadPart(7, {0}), s4);
    InsertByte(s4, 5, 0);
    assert s4.loads - {5} == map[7 := Load(0, map[0 := 0])];
    r := Go(r, NoOverlap, s4, [0], LoadInsert(5), OneByte(0, Resident(0, false, 1), 1, map[], map[7 := Load(0, map[0 := 0])]));
  }

  lemma FlushedUnderLoad() returns (r: Run)
    ensures Reaches(r, NoOverlap, OneByte(2, Resident(2, true, 2), 2, map[1 := Flight(0, 2, map[0 := 2], {0})], map[7 := Load(0, map[0 := 0])]), [2])
  {
    hide Reaches, Moves;
    r := TwoLoads();
    var w := map[7 := Load(0, map[0 := 0])];
    var f := Flight(0, 2, map[0 := 2], {});
    var s0 := OneByte(0, Resident(0, false, 1), 1, map[], w);
    var s1 := OneByte(0, Resident(2, true, 2), 2, map[], w);
    var s2 := OneByte(0, Resident(2, true, 2), 2, map[1 := f], w);
    var s3 := OneByte(2, Resident(2, true, 2), 2, map[1 := f.(landed := {0})], w);
    ApplyByte(s0, 0, false, 1, 2);
    r := GoApply(r, NoOverlap, s0, 0, 2, s1);
    SnapshotByte(s1, 1, 2, 2);
    r := Go(r, NoOverlap, s1, [2], Snapshot(1, 0), s2);
    LandByte(s2, 1, 0, 2);
    assert s2.flights[1 := f.(landed := {0})] == s3.flights;
    r := Go(r, NoOverlap, s2, [2], Land(1, {0}), s3);
  }

  lemma EvictedUnderLoad() returns (r: Run)
    ensures Reaches(r, NoOverlap, OneByte(2, map[], 2, map[], map[7 := Load(0, map[0 := 0])]), [2])
  {
    hide Reaches, Moves;
    r := FlushedUnderLoad();
    var w := map[7 := Load(0, map[0 := 0])];
    var s3 := OneByte(2, Resident(2, true, 2), 2, map[1 := Flight(0, 2, map[0 := 2], {0})], w);
    var s4 := OneByte(2, Resident(2, false, 2), 2, map[], w);
    var s5 := OneByte(2, map[], 2, map[], w);
    assert s3.flights - {1} == s4.flights;
    FinishByte(s3, 1, 2, 2);
    r := Go(r, NoOverlap, s3, [2], Finish(1), s4);
    EvictByte(s4, 2, 2);
    r := Go(r, NoOverlap, s4, [2], Evict(0), s5);
  }

  lemma SlowerLoadInstalled() returns (r: Run)
    ensures Reaches(r, NoOverlap, OneByte(2, Resident(0, false, 3), 3, map[], map[]), [2])
  {
    hide Reaches, Moves;
    r := EvictedUnderLoad();
    var s5 := OneByte(2, map[], 2, map[], map[7 := Load(0, map[0 := 0])]);
    InsertByte(s5, 7, 0);
    assert s5.loads - {7} == map[];
    r := Go(r, NoOverlap, s5, [2], LoadInsert(7), OneByte(2, Resident(0, false, 3), 3, map[], map[]));
  }

  /**
    Two clients load one page.  The page is written with 2, flushed and evicted before the slower load is installed,
    so the stale byte is installed as clean.
  */
  lemma ConcurrentLoadsLoseAWrite() returns (r: Run)
    ensures r.Valid() && Empty(r.First()) && r.All(NoOverlap)
    ensures r.Replayed() == [2] && r.End().Shape() && View(r.End()) == [0]
  {
    r := SlowerLoadInstalled();
  }
}
