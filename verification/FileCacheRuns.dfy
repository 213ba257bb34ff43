/**
  Whole runs of the local-disk cache: refinement of the flat device, flushes that drain in any completion
  order, and the runs that go wrong when a hypothesis is dropped.
*/
module FileCacheRuns {
  import opened Store
  import opened FileCache
  import opened FileCacheRefinement

  datatype Run = Start(s: State) | Then(prev: Run, l: Label) {

    ghost predicate Valid()
      decreases this, 0
    {
      match this
      case Start(s) => true
      case Then(r, l) => r.Valid() && Enabled(r.End(), l)
    }

    ghost function End(): State
      requires Valid()
      decreases this, 1
    {
      match this
      case Start(s) => s
      case Then(r, l) => Next(r.End(), l)
    }

    ghost function First(): State {
      match this
      case Start(s) => s
      case Then(r, l) => r.First()
    }

    ghost predicate All(h: (State, Label) -> bool)
      requires Valid()
    {
      match this
      case Start(s) => true
      case Then(r, l) => r.All(h) && h(r.End(), l)
    }

    /** The flat device: the first state's content with every write that is over applied, in order. */
    ghost function Replayed(): seq<Byte>
      requires Valid() && First().Shape()
    {
      match this
      case Start(s) => Flat(s)
      case Then(r, l) => Overlay(r.Replayed(), Written(r.End(), l))
    }

    /** The uploads in flight that were begun during the run. */
    ghost function Begun(): set<nat> {
      match this
      case Start(s) => {}
      case Then(r, l) => BegunAfter(r.Begun(), l)
    }

    /** The pages of which an upload was begun and finished during the run. */
    ghost function Flushed(): set<nat>
      requires Valid()
    {
      match this
      case Start(s) => {}
      case Then(r, l) =>
        if l.Finish? && l.id in r.Begun() then r.Flushed() + {r.End().flights[l.id].page} else r.Flushed()
    }
  }

  /** The cache as it stands when it has just been opened. */
  ghost predicate Opened(s: State) {
    && s.Shape()
    && s.dirty <= s.present
    && CleanIsBlob(s)
    && s.client.Idle?
    && s.flights == map[]
    && s.fetches == map[]
  }

  lemma {:induction false} RunKeepsInv(r: Run)
    requires r.Valid() && Inv(r.First()) && r.All(Disciplined)
    ensures Inv(r.End())
  {
    if r.Then? {
      RunKeepsInv(r.prev);
      StepRefines(r.prev.End(), r.l);
    }
  }

  /** Every run shows exactly the finished writes, in order. */
  lemma {:induction false} RunRefinesFlat(r: Run)
    requires r.Valid() && Opened(r.First()) && r.All(Disciplined)
    ensures Inv(r.End()) && Flat(r.End()) == r.Replayed()
  {
    RunKeepsInv(r);
    if r.Then? {
      RunRefinesFlat(r.prev);
      StepRefines(r.prev.End(), r.l);
    }
  }

  /** A read returns the flat device at one instant, however it interleaved. */
  lemma ReadReturnsFlat(r: Run)
    requires r.Valid() && Opened(r.First()) && r.All(Disciplined)
    requires Enabled(r.End(), EndRead)
    ensures r.End().client.got == Cut(r.Replayed(), r.End().client.keys)
  {
    RunRefinesFlat(r);
    StepRefines(r.End(), EndRead);
  }

  /** Wherever the blob differs from what readers see, the page is present and dirty. */
  lemma StaleBlobIsDirty(r: Run, k: nat)
    requires r.Valid() && Opened(r.First()) && r.All(Disciplined)
    requires r.End().Calm() && k < |r.End().blob|
    ensures r.End().Shape()
    ensures r.End().blob[k] != At(r.End(), k) ==>
              r.End().pg[k] in r.End().present && r.End().pg[k] in r.End().dirty
  {
    RunRefinesFlat(r);
    if r.End().blob[k] != At(r.End(), k) { StaleIsDirty(r.End(), k); }
  }

  lemma StaleIsDirty(s: State, k: nat)
    requires Inv(s) && s.Calm() && k < |s.blob| && s.blob[k] != At(s, k)
    ensures s.pg[k] in s.present && s.pg[k] in s.dirty
  {
  }

  // ----- Flushing -----

  predicate NotAWrite(s: State, l: Label) { !l.BeginWrite? && !s.client.Writer? }

  /** These flights were snapshotted from their pages as they still are. */
  ghost predicate FlightsCurrent(s: State, ids: set<nat>) {
    forall id | id in ids :: id in s.flights && s.flights[id].gen == s.Gen(s.flights[id].page)
  }

  /** The flights of `ids` after a step, if those that begin are counted in. */
  function BegunAfter(ids: set<nat>, l: Label): set<nat> {
    if l.Snapshot? then ids + {l.id} else if l.Finish? || l.Fail? then ids - {l.id} else ids
  }

  lemma QuietStep(s: State, l: Label, ids: set<nat>)
    requires Enabled(s, l) && NotAWrite(s, l) && FlightsCurrent(s, ids)
    ensures Next(s, l).dirty <= s.dirty
    ensures Next(s, l).dirty == s.dirty || (l.Finish? && Next(s, l).dirty == s.dirty - {s.flights[l.id].page})
    ensures l.Finish? && l.id in ids ==> Next(s, l).dirty == s.dirty - {s.flights[l.id].page}
    ensures !Next(s, l).client.Writer? && FlightsCurrent(Next(s, l), BegunAfter(ids, l))
    ensures s.flights.Keys <= ids ==> Next(s, l).flights.Keys <= BegunAfter(ids, l)
  {
  }

  lemma QuietFlat(s: State, l: Label)
    requires Inv(s) && Enabled(s, l) && Disciplined(s, l) && NotAWrite(s, l)
    ensures Inv(Next(s, l)) && Flat(Next(s, l)) == Flat(s)
  {
    hide Next, Disciplined;
    StepRefines(s, l);
    NothingWritten(Flat(s));
  }

  /**
    With no write going on, finishing an upload begun in the run always cleans its page.  Nothing else does, but for
    uploads that were in flight at the start and are still current.
  */
  lemma {:induction false} FlushProgress(r: Run)
    requires r.Valid() && Inv(r.First()) && r.All(Disciplined) && r.All(NotAWrite) && !r.First().client.Writer?
    ensures r.End().dirty <= r.First().dirty - r.Flushed()
    ensures r.First().flights == map[] ==> r.End().dirty == r.First().dirty - r.Flushed() && r.End().flights.Keys <= r.Begun()
    ensures !r.End().client.Writer? && FlightsCurrent(r.End(), r.Begun())
    ensures Inv(r.End()) && Flat(r.End()) == Flat(r.First())
  {
    hide Inv, Enabled, Next, Disciplined, NotAWrite, FlightsCurrent;
    if r.Then? {
      FlushProgress(r.prev);
      if r.l.Finish? { FinishedHere(r); }
      QuietStep(r.prev.End(), r.l, r.prev.Begun());
      QuietFlat(r.prev.End(), r.l);
    } else {
      NoneBegun(r.First());
    }
  }

  lemma FinishedHere(r: Run)
    requires r.Valid() && r.Then? && r.l.Finish?
    ensures r.l.id in r.prev.End().flights
  {
  }

  lemma NoneBegun(s: State)
    ensures FlightsCurrent(s, {})
  {
  }

  /**
    A flush that uploaded every page that was dirty when it began leaves nothing dirty, and the blob equal to
    the device, whatever order the uploads completed in and whatever uploads were in flight before.
  */
  lemma FlushDrains(r: Run)
    requires r.Valid() && Inv(r.First()) && r.All(Disciplined) && r.All(NotAWrite) && !r.First().client.Writer?
    requires r.First().dirty <= r.Flushed()
    ensures r.End().dirty == {} && r.End().blob == Flat(r.First())
  {
    FlushProgress(r);
    assert r.End().blob == View(r.End());
  }

  // ----- What goes wrong without the hypotheses -----

  ghost predicate Moves(s: State, l: Label, t: State) { Enabled(s, l) && t == Next(s, l) }

  /** `r` is a run of a cache just opened, within the hypothesis `h`, that ends in `t` with `v` written. */
  ghost predicate Reaches(r: Run, h: (State, Label) -> bool, t: State, v: seq<Byte>) {
    r.Valid() && Opened(r.First()) && r.All(h) && r.End() == t && r.Replayed() == v
  }

  /** One more step that ends no write. */
  lemma Go(r: Run, h: (State, Label) -> bool, s: State, v: seq<Byte>, l: Label, t: State) returns (q: Run)
    requires Reaches(r, h, s, v) && Moves(s, l, t) && h(s, l) && !l.EndWrite? && !l.AbortWrite?
    ensures Reaches(q, h, t, v)
  {
    q := Then(r, l);
    NothingWritten(r.Replayed());
  }

  /** One more step that ends a write of the only byte. */
  lemma GoEnd(r: Run, h: (State, Label) -> bool, s: State, d: Byte, v: Byte, t: State) returns (q: Run)
    requires Reaches(r, h, s, [d]) && Moves(s, EndWrite, t) && h(s, EndWrite) && s.client.img == map[0 := v]
    ensures Reaches(q, h, t, [v])
  {
    q := Then(r, EndWrite);
    OneByteFacts(d, v);
  }

  ghost predicate AllButNoOverlap(s: State, l: Label) { NoStaleFetch(s, l) && NoWrap(s, l) }

  ghost predicate AllButNoStaleFetch(s: State, l: Label) { NoOverlap(s, l) && NoWrap(s, l) }

  /** A device of one byte and one page. */
  function OneByteAt(data: Byte, blob: Byte, present: set<nat>, dirty: set<nat>, gens: map<nat, nat>,
                     flights: map<nat, Flight>, fetches: map<nat, Fetch>): State
  {
    State([0], [blob], [data], present, dirty, gens, flights, fetches, Idle)
  }

  /** The same, its page never written since it was opened. */
  function OneByte(data: Byte, blob: Byte, present: set<nat>, dirty: set<nat>,
                   flights: map<nat, Flight>, fetches: map<nat, Fetch>): State
  {
    OneByteAt(data, blob, present, dirty, map[], flights, fetches)
  }

  lemma OneByteFacts(d: Byte, v: Byte)
    ensures PageKeys([0], 0) == {0}
    ensures Cut([d], {0}) == map[0 := d]
    ensures Overlay([d], Restrict(map[0 := v], {0})) == [v] == Overlay([d], map[0 := v])
    ensures Overlay([d], Zeros({0})) == [0]
  {
    assert Restrict(map[0 := v], {0}) == map[0 := v];
  }

  lemma LandByte(s: State, id: nat, d: Byte, v: Byte)
    requires s.Shape() && s.pg == [0] && s.blob == [d]
    requires id in s.flights && s.flights[id].img == map[0 := v] && s.flights[id].landed == {}
    ensures Moves(s, Land(id, {0}), s.(blob := [v], flights := s.flights[id := s.flights[id].(landed := {0})]))
  {
    OneByteFacts(d, v);
    assert {} + {0} == {0};
  }

  lemma SnapshotByte(s: State, id: nat, d: Byte)
    requires s.Shape() && s.pg == [0] && s.data == [d] && s.client.Idle? && id !in s.flights && 0 in s.dirty
    ensures Moves(s, Snapshot(id, 0), s.(flights := s.flights[id := Flight(0, s.Gen(0), map[0 := d], {})]))
  {
    OneByteFacts(d, d);
  }

  lemma FinishByte(s: State, id: nat)
    requires s.Shape() && s.client.Idle? && id in s.flights && s.dirty == {0}
    requires s.flights[id].landed == s.flights[id].img.Keys && s.flights[id].page == 0 && s.flights[id].gen == s.Gen(0)
    ensures Moves(s, Finish(id), s.(dirty := {}, flights := s.flights - {id}))
  {
  }

  lemma EvictByte(s: State, d: Byte)
    requires s.Shape() && s.pg == [0] && s.data == [d] && s.Calm() && s.present == {0} && s.dirty == {}
    ensures Moves(s, Evict(0), s.(data := [0], present := {}))
  {
    OneByteFacts(d, d);
  }

  /** The state after the byte was written. */
  function Rewritten(s: State, v: Byte): State {
    s.(data := [v], present := {0}, dirty := {0}, gens := s.gens[0 := s.Gen(0) + 1])
  }

  function Busy(s: State, v: Byte, done: set<nat>, part: set<nat>, before: seq<Byte>): State {
    s.(client := Writer(map[0 := v], done, part, before))
  }

  lemma BeginByte(s: State, v: Byte)
    requires s.Shape() && s.pg == [0] && s.client.Idle?
    ensures Moves(s, BeginWrite(map[0 := v]), Busy(s, v, {}, {}, View(s)))
  {
  }

  lemma PutByte(s: State, d: Byte, v: Byte, before: seq<Byte>)
    requires s.Shape() && s.pg == [0] && s.data == [d]
    ensures Moves(Busy(s, v, {}, {}, before), PutData(0, {0}), Busy(s.(data := [v]), v, {}, {0}, before))
  {
    OneByteFacts(d, v);
    assert {} + {0} == {0};
  }

  lemma MarkByte(s: State, v: Byte, before: seq<Byte>)
    requires s.Shape() && s.pg == [0] && s.present <= {0} && s.dirty <= {0}
    ensures Moves(Busy(s.(data := [v]), v, {}, {0}, before), MarkDirty(0), Busy(Rewritten(s, v), v, {0}, {}, before))
  {
    OneByteFacts(0, v);
    assert {} + {0} == {0} && s.present + {0} == {0} && s.dirty + {0} == {0};
  }

  lemma EndByte(s: State, v: Byte, before: seq<Byte>)
    requires s.Shape() && s.client.Idle?
    ensures Moves(Busy(s, v, {0}, {}, before), EndWrite, s)
  {
  }

  /** A run in which the byte is written once more. */
  lemma WriteByte(r: Run, h: (State, Label) -> bool, s: State, u: Byte, d: Byte, v: Byte) returns (q: Run)
    requires Reaches(r, h, s, [u])
    requires s.Shape() && s.pg == [0] && s.data == [d] && s.client.Idle? && s.present <= {0} && s.dirty <= {0}
    requires forall x: State, l: Label :: !l.Snapshot? && !l.Evict? && !l.Finish? ==> h(x, l)
    ensures Reaches(q, h, Rewritten(s, v), [v])
  {
    hide Reaches, Moves, Rewritten;
    var before := View(s);
    BeginByte(s, v);
    q := Go(r, h, s, [u], BeginWrite(map[0 := v]), Busy(s, v, {}, {}, before));
    PutByte(s, d, v, before);
    q := Go(q, h, Busy(s, v, {}, {}, before), [u], PutData(0, {0}), Busy(s.(data := [v]), v, {}, {0}, before));
    MarkByte(s, v, before);
    q := Go(q, h, Busy(s.(data := [v]), v, {}, {0}, before), [u], MarkDirty(0), Busy(Rewritten(s, v), v, {0}, {}, before));
    RewrittenRests(s, v);
    EndByte(Rewritten(s, v), v, before);
    q := GoEnd(q, h, Busy(Rewritten(s, v), v, {0}, {}, before), u, v, Rewritten(s, v));
  }

  lemma RewrittenRests(s: State, v: Byte)
    requires s.Shape() && s.pg == [0] && s.client.Idle?
    ensures Rewritten(s, v).Shape() && Rewritten(s, v).client.Idle?
  {
  }

  /** The run that is just the opening of a one-byte device. */
  lemma OpenByte(h: (State, Label) -> bool, data: Byte, blob: Byte) returns (r: Run)
    ensures Reaches(r, h, OneByte(data, blob, {}, {}, map[], map[]), [blob])
  {
    r := Start(OneByte(data, blob, {}, {}, map[], map[]));
  }

  const OLDER := Flight(0, 1, map[0 := 1], {})
  const NEWER := Flight(0, 2, map[0 := 2], {})

  /** The page holds 2, an upload of 1 is in flight, and perhaps one of 2. */
  function TwoUploads(blob: Byte, dirty: set<nat>, flights: map<nat, Flight>): State {
    OneByteAt(2, blob, {0}, dirty, map[0 := 2], flights, map[])
  }

  /** The value 1 is written and its upload begins; then 2 is written. */
  lemma OlderUploadBegins() returns (r: Run)
    ensures Reaches(r, AllButNoOverlap, TwoUploads(0, {0}, map[1 := OLDER]), [2])
  {
    hide Reaches, Moves;
    r := OpenByte(AllButNoOverlap, 0, 0);
    r := WriteByte(r, AllButNoOverlap, OneByte(0, 0, {}, {}, map[], map[]), 0, 0, 1);
    var s := OneByteAt(1, 0, {0}, {0}, map[0 := 1], map[], map[]);
    var t := OneByteAt(1, 0, {0}, {0}, map[0 := 1], map[1 := OLDER], map[]);
    SnapshotByte(s, 1, 1);
    r := Go(r, AllButNoOverlap, s, [1], Snapshot(1, 0), t);
    r := WriteByte(r, AllButNoOverlap, t, 1, 1, 2);
    assert t.gens[0 := 2] == map[0 := 2];
  }

  /**
    The upload of the value 1 is in flight when the page, rewritten with 2, is flushed again.  The two flushes
    overlap: the older bytes land last on a page already marked clean, and an eviction brings them back.
  */
  lemma OverlappingFlushesLoseAWrite() returns (r: Run)
    ensures r.Valid() && Opened(r.First()) && r.All(AllButNoOverlap)
    ensures r.Replayed() == [2] && r.End().Shape() && Flat(r.End()) == [1]
  {
    r := OlderUploadLandsLast();
  }

  lemma OlderUploadLandsLast() returns (r: Run)
    ensures Reaches(r, AllButNoOverlap, OneByteAt(0, 1, {}, {}, map[0 := 2], map[1 := OLDER.(landed := {0})], map[]), [2])
  {
    hide Reaches, Moves;
    r := OlderUploadBegins();
    var s0 := TwoUploads(0, {0}, map[1 := OLDER]);
    var s1 := TwoUploads(0, {0}, map[1 := OLDER, 2 := NEWER]);
    var s2 := TwoUploads(2, {0}, map[1 := OLDER, 2 := NEWER.(landed := {0})]);
    var s3 := TwoUploads(2, {}, map[1 := OLDER]);
    var s4 := TwoUploads(1, {}, map[1 := OLDER.(landed := {0})]);
    SnapshotByte(s0, 2, 2);
    r := Go(r, AllButNoOverlap, s0, [2], Snapshot(2, 0), s1);
    LandByte(s1, 2, 0, 2);
    r := Go(r, AllButNoOverlap, s1, [2], Land(2, {0}), s2);
    FinishByte(s2, 2);
    assert s2.flights - {2} == s3.flights;
    r := Go(r, AllButNoOverlap, s2, [2], Finish(2), s3);
    LandByte(s3, 1, 2, 1);
    r := Go(r, AllButNoOverlap, s3, [2], Land(1, {0}), s4);
    EvictByte(s4, 2);
    r := Go(r, AllButNoOverlap, s4, [2], Evict(0), s4.(data := [0], present := {}));
  }

  /** The fetch of the page that brought 1, with what of it is in the data file. */
  function Fetched(put: set<nat>): map<nat, Fetch> { map[7 := Fetch(0, map[0 := 1], put)] }

  lemma FetchByte(s: State, d: Byte)
    requires s == OneByte(d, 1, {}, {}, map[], map[])
    ensures Moves(s, FetchStart(7, 0), s.(fetches := map[7 := Fetch(0, map[], {})]))
    ensures Moves(s.(fetches := map[7 := Fetch(0, map[], {})]), FetchPart(7, {0}), s.(fetches := Fetched({})))
  {
    OneByteFacts(1, 1);
    var none: Image := map[];
    assert none + Cut([1], {0}) == map[0 := 1];
    assert map[7 := Fetch(0, none, {})][7 := Fetch(0, map[0 := 1], {})] == Fetched({});
  }

  lemma FetchBegins() returns (r: Run)
    ensures Reaches(r, AllButNoStaleFetch, OneByte(0, 1, {}, {}, map[], Fetched({})), [1])
  {
    hide Reaches, Moves;
    var s := OneByte(0, 1, {}, {}, map[], map[]);
    r := OpenByte(AllButNoStaleFetch, 0, 1);
    FetchByte(s, 0);
    r := Go(r, AllButNoStaleFetch, s, [1], FetchStart(7, 0), s.(fetches := map[7 := Fetch(0, map[], {})]));
    r := Go(r, AllButNoStaleFetch, s.(fetches := map[7 := Fetch(0, map[], {})]), [1], FetchPart(7, {0}), s.(fetches := Fetched({})));
  }

  /** Meanwhile the page is written with 2, flushed, and evicted while the fetch is still on its way. */
  lemma EvictedUnderFetch() returns (r: Run)
    ensures Reaches(r, AllButNoStaleFetch, OneByteAt(0, 2, {}, {}, map[0 := 1], map[], Fetched({})), [2])
  {
    hide Reaches, Moves;
    r := FetchBegins();
    r := WriteByte(r, AllButNoStaleFetch, OneByte(0, 1, {}, {}, map[], Fetched({})), 1, 0, 2);
    var f := Flight(0, 1, map[0 := 2], {});
    var s0 := OneByteAt(2, 1, {0}, {0}, map[0 := 1], map[], Fetched({}));
    var s1 := OneByteAt(2, 1, {0}, {0}, map[0 := 1], map[1 := f], Fetched({}));
    var s2 := OneByteAt(2, 2, {0}, {0}, map[0 := 1], map[1 := f.(landed := {0})], Fetched({}));
    var s3 := OneByteAt(2, 2, {0}, {}, map[0 := 1], map[], Fetched({}));
    SnapshotByte(s0, 1, 2);
    r := Go(r, AllButNoStaleFetch, s0, [2], Snapshot(1, 0), s1);
    LandByte(s1, 1, 1, 2);
    assert s1.flights[1 := f.(landed := {0})] == s2.flights && s2.flights - {1} == s3.flights;
    r := Go(r, AllButNoStaleFetch, s1, [2], Land(1, {0}), s2);
    FinishByte(s2, 1);
    r := Go(r, AllButNoStaleFetch, s2, [2], Finish(1), s3);
    EvictByte(s3, 2);
    r := Go(r, AllButNoStaleFetch, s3, [2], Evict(0), s3.(data := [0], present := {}));
  }

  lemma StoreByte(s: State)
    requires s == OneByteAt(0, 2, {}, {}, map[0 := 1], map[], Fetched({}))
    ensures Moves(s, FetchPut(7, {0}), s.(data := [1], fetches := Fetched({0})))
    ensures Moves(s.(data := [1], fetches := Fetched({0})), FetchMark(7), OneByteAt(1, 2, {0}, {}, map[0 := 1], map[], map[]))
  {
    OneByteFacts(0, 1);
    assert {} + {0} == {0} && Fetched({})[7 := Fetch(0, map[0 := 1], {0})] == Fetched({0}) && Fetched({0}) - {7} == map[];
  }

  /**
    A warm-up fetched the value 1 before the page was written and flushed.  The page is evicted while the
    fetch is still on its way, so the stale bytes are installed as clean.
  */
  lemma StaleFetchLosesAWrite() returns (r: Run)
    ensures r.Valid() && Opened(r.First()) && r.All(AllButNoStaleFetch)
    ensures r.Replayed() == [2] && r.End().Shape() && Flat(r.End()) == [1]
  {
    r := StaleFetchInstalled();
  }

  lemma StaleFetchInstalled() returns (r: Run)
    ensures Reaches(r, AllButNoStaleFetch, OneByteAt(1, 2, {0}, {}, map[0 := 1], map[], map[]), [2])
  {
    hide Reaches, Moves;
    r := EvictedUnderFetch();
    var s := OneByteAt(0, 2, {}, {}, map[0 := 1], map[], Fetched({}));
    StoreByte(s);
    r := Go(r, AllButNoStaleFetch, s, [2], FetchPut(7, {0}), s.(data := [1], fetches := Fetched({0})));
    r := Go(r, AllButNoStaleFetch, s.(data := [1], fetches := Fetched({0})), [2], FetchMark(7), OneByteAt(1, 2, {0}, {}, map[0 := 1], map[], map[]));
  }
}
