/**
  The local-disk cache refines a flat byte array: in every interleaving of client operations, flush phases,
  warm-up stores and evictions, a read returns the flat content and only a finished write changes it.
*/
module FileCacheRefinement {
  import opened Common
  import opened Store
  import opened FileCache

  // ----- Invariant -----

  ghost predicate CleanIsBlob(s: State)
    requires s.Shape()
  {
    forall k: nat | k < |s.blob| && s.pg[k] in s.present && s.pg[k] !in s.dirty && !s.InPart(k) ::
      s.data[k] == s.blob[k]
  }

  ghost predicate FlightOk(s: State, f: Flight)
    requires s.Shape()
  {
    && f.page in s.dirty
    && f.gen <= s.Gen(f.page)
    && f.img.Keys == PageKeys(s.pg, f.page)
    && f.landed <= f.img.Keys
    && (forall k | k in f.landed :: s.blob[k] == f.img[k])
    && (f.gen == s.Gen(f.page) ==> forall k | k in f.img && !s.InPart(k) :: s.data[k] == f.img[k])
  }

  ghost predicate FetchOk(s: State, w: Fetch)
    requires s.Shape()
  {
    && w.img.Keys <= PageKeys(s.pg, w.page)
    && w.put <= w.img.Keys
    && (w.page !in s.present ==>
          && (forall k | k in w.img :: s.blob[k] == w.img[k])
          && (forall k | k in w.put && !s.InPart(k) :: s.data[k] == w.img[k]))
  }

  /** What a writer has put so far is in its own request, one page at a time, and in the data file. */
  ghost predicate WriterOk(s: State)
    requires s.Shape() && s.client.Writer?
  {
    var Writer(img, done, part, before) := s.client;
    && |before| == |s.blob|
    && (forall k | k in img :: k < |s.blob|)
    && done <= img.Keys
    && part <= img.Keys - done
    && (forall j, k | j in done && k in img && s.pg[j] == s.pg[k] :: k in done)
    && (forall j, k | j in part && k in part :: s.pg[j] == s.pg[k])
    && (forall j, k: nat | j in part && k < |s.blob| && s.pg[j] == s.pg[k] && s.pg[j] !in s.present :: k in img)
    && (forall k | k in part :: s.data[k] == img[k])
  }

  /** The device shows the writer's bytes exactly where they were put, and the old content elsewhere. */
  ghost predicate WriterView(s: State)
    requires s.Shape() && s.client.Writer? && |s.client.before| == |s.blob|
  {
    forall k: nat | k < |s.blob| :: At(s, k) == WriterByte(s, k)
  }

  ghost function WriterByte(s: State, k: nat): Byte
    requires s.Shape() && s.client.Writer? && k < |s.blob| == |s.client.before|
  {
    if k in s.client.img && (k in s.client.done || (k in s.client.part && s.pg[k] in s.present)) then
      s.client.img[k]
    else
      s.client.before[k]
  }

  ghost predicate ReaderOk(s: State)
    requires s.Shape() && s.client.Reader?
  {
    && s.client.got.Keys <= s.client.keys
    && (forall k | k in s.client.keys :: k < |s.blob|)
    && (forall k | k in s.client.got :: s.client.got[k] == At(s, k))
  }

  ghost predicate ClientOk(s: State)
    requires s.Shape()
  {
    && (s.client.Reader? ==> ReaderOk(s))
    && (s.client.Writer? ==> WriterOk(s) && WriterView(s))
  }

  ghost predicate FlightsOk(s: State)
    requires s.Shape()
  {
    && (forall id | id in s.flights :: FlightOk(s, s.flights[id]))
    && (forall i, j | i in s.flights && j in s.flights && i != j :: s.flights[i].page != s.flights[j].page)
  }

  ghost predicate FetchesOk(s: State)
    requires s.Shape()
  {
    forall id | id in s.fetches :: FetchOk(s, s.fetches[id])
  }

  ghost predicate Inv(s: State) {
    s.Shape() && s.dirty <= s.present && CleanIsBlob(s) && FlightsOk(s) && FetchesOk(s) && ClientOk(s)
  }

  // ----- Every step keeps the invariant -----
  //
  // One lemma per component and step, each taking only the component it needs.

  /** Steps that move only the client between chunks. */
  lemma ClientMoveKeeps(s: State, t: State)
    requires s.Shape() && s.Calm() && t.Calm() && t == s.(client := t.client)
    requires CleanIsBlob(s) && FlightsOk(s) && FetchesOk(s)
    ensures CleanIsBlob(t) && FlightsOk(t) && FetchesOk(t)
  {
  }

  /** Steps that move only the fetches. */
  lemma FetchMoveKeeps(s: State, t: State)
    requires s.Shape() && t == s.(fetches := t.fetches) && CleanIsBlob(s) && FlightsOk(s)
    ensures CleanIsBlob(t) && FlightsOk(t) && forall k: nat | k < |s.blob| :: At(t, k) == At(s, k)
  {
  }

  /** Steps that move only the flights and dirty bits. */
  lemma FlightMoveKeeps(s: State, t: State)
    requires s.Shape() && t == s.(flights := t.flights, dirty := t.dirty) && FetchesOk(s)
    ensures FetchesOk(t) && forall k: nat | k < |s.blob| :: At(t, k) == At(s, k)
  {
  }

  /** A step that shows every reader the same device, and keeps what a writer has put, keeps the client. */
  lemma SameViewKeepsClient(s: State, t: State)
    requires s.Shape() && t.Shape() && ClientOk(s)
    requires t.pg == s.pg && t.client == s.client
    requires forall k: nat | k < |s.blob| :: At(t, k) == At(s, k)
    requires s.Calm() || (t.present == s.present && t.data == s.data)
    ensures ClientOk(t)
  {
  }

  lemma ReadPartKeeps(s: State, t: State, p: nat, keys: set<nat>)
    requires s.Shape() && s.client.Reader? && keys <= s.client.keys && keys <= PageKeys(s.pg, p) && ReaderOk(s)
    requires t == s.(client := s.client.(got := s.client.got + Served(s, p, keys)))
    ensures ReaderOk(t)
  {
  }

  lemma PutDataKeepsClean(s: State, t: State, p: nat, keys: set<nat>)
    requires CanPut(s, p, keys) && t == Put(s, p, keys) && CleanIsBlob(s)
    ensures CleanIsBlob(t)
  {
  }

  lemma PutDataKeepsFlights(s: State, t: State, p: nat, keys: set<nat>)
    requires CanPut(s, p, keys) && t == Put(s, p, keys) && FlightsOk(s)
    ensures FlightsOk(t)
  {
    forall id | id in t.flights ensures FlightOk(t, t.flights[id]) {
      assert FlightOk(s, s.flights[id]);
    }
  }

  lemma PutDataKeepsFetches(s: State, t: State, p: nat, keys: set<nat>)
    requires CanPut(s, p, keys) && t == Put(s, p, keys) && FetchesOk(s)
    ensures FetchesOk(t)
  {
  }

  lemma PutDataKeepsWriter(s: State, t: State, p: nat, keys: set<nat>)
    requires CanPut(s, p, keys) && t == Put(s, p, keys) && WriterOk(s)
    ensures WriterOk(t)
  {
  }

  lemma PutDataKeepsView(s: State, t: State, p: nat, keys: set<nat>)
    requires CanPut(s, p, keys) && t == Put(s, p, keys) && |s.client.before| == |s.blob| && WriterView(s)
    ensures WriterView(t)
  {
    forall k: nat | k < |t.blob| ensures At(t, k) == WriterByte(t, k) {
      assert At(s, k) == WriterByte(s, k);
      if k in keys {
        assert s.pg[k] == p && t.data[k] == s.client.img[k];
      } else {
        assert t.data[k] == s.data[k];
      }
    }
  }

  lemma MarkDirtyKeepsClean(s: State, t: State, p: nat)
    requires CanMark(s, p) && t == Mark(s, p) && CleanIsBlob(s)
    ensures CleanIsBlob(t)
  {
  }

  lemma MarkDirtyKeepsFlights(s: State, t: State, p: nat)
    requires CanMark(s, p) && t == Mark(s, p) && FlightsOk(s)
    ensures FlightsOk(t)
  {
  }

  lemma MarkDirtyKeepsFetches(s: State, t: State, p: nat)
    requires CanMark(s, p) && t == Mark(s, p) && FetchesOk(s)
    ensures FetchesOk(t)
  {
  }

  lemma MarkDirtyKeepsWriter(s: State, t: State, p: nat)
    requires CanMark(s, p) && t == Mark(s, p) && WriterOk(s)
    ensures WriterOk(t)
  {
  }

  lemma MarkKeepsByte(s: State, t: State, p: nat, k: nat)
    requires CanMark(s, p) && t == Mark(s, p) && WriterOk(s) && k < |s.blob| && At(s, k) == WriterByte(s, k)
    requires exists j :: j in s.client.part && s.pg[j] == p
    ensures At(t, k) == WriterByte(t, k)
  {
  }

  lemma MarkDirtyKeepsView(s: State, t: State, p: nat)
    requires CanMark(s, p) && t == Mark(s, p) && WriterOk(s) && WriterView(s)
    ensures WriterView(t)
  {
    hide At, WriterByte;
    assert exists j :: j in s.client.part && s.pg[j] == p by { MarkedPart(s, p); }
    forall k: nat | k < |t.blob| ensures At(t, k) == WriterByte(t, k) {
      assert At(s, k) == WriterByte(s, k);
      MarkKeepsByte(s, t, p, k);
    }
  }

  lemma MarkedPart(s: State, p: nat)
    requires CanMark(s, p) && WriterOk(s)
    ensures exists j :: j in s.client.part && s.pg[j] == p
  {
    var j :| j in s.client.part;
    assert s.pg[j] == p;
  }

  lemma FetchStepKeeps(s: State, t: State, id: nat)
    requires s.Shape() && FetchesOk(s)
    requires t == s.(fetches := t.fetches) && t.fetches - {id} == s.fetches - {id}
    requires id in t.fetches ==> FetchOk(t, t.fetches[id])
    ensures FetchesOk(t)
  {
    forall i | i in t.fetches ensures FetchOk(t, t.fetches[i]) {
      if i != id {
        assert i in t.fetches - {id};
        assert t.fetches[i] == s.fetches[i];
        assert FetchOk(s, s.fetches[i]);
      }
    }
  }

  lemma FetchPartKeeps(s: State, t: State, id: nat, keys: set<nat>)
    requires CanFetchPart(s, id, keys) && t == FetchedPart(s, id, keys) && FetchesOk(s)
    ensures FetchesOk(t)
  {
  }

  lemma FetchPutKeepsFlights(s: State, t: State, id: nat, keys: set<nat>)
    requires CanFetchPut(s, id, keys) && t == FetchedPut(s, id, keys) && FlightsOk(s) && s.dirty <= s.present
    ensures FlightsOk(t)
  {
  }

  lemma FetchPutKeepsFetches(s: State, t: State, id: nat, keys: set<nat>)
    requires CanFetchPut(s, id, keys) && t == FetchedPut(s, id, keys) && FetchesOk(s)
    ensures FetchesOk(t)
  {
  }

  lemma FetchPutKeepsView(s: State, t: State, id: nat, keys: set<nat>)
    requires CanFetchPut(s, id, keys) && t == FetchedPut(s, id, keys) && FetchesOk(s) && CleanIsBlob(s)
    ensures CleanIsBlob(t) && forall k: nat | k < |s.blob| :: At(t, k) == At(s, k)
  {
  }

  lemma FetchMarkKeepsRest(s: State, t: State, id: nat)
    requires CanFetchMark(s, id) && t == FetchedMark(s, id) && FlightsOk(s) && FetchesOk(s)
    ensures FlightsOk(t) && FetchesOk(t)
  {
  }

  lemma FetchMarkKeepsView(s: State, t: State, id: nat)
    requires CanFetchMark(s, id) && t == FetchedMark(s, id) && FetchesOk(s) && CleanIsBlob(s)
    ensures CleanIsBlob(t) && forall k: nat | k < |s.blob| :: At(t, k) == At(s, k)
  {
  }

  lemma SnapshotKeeps(s: State, t: State, id: nat, p: nat)
    requires CanSnapshot(s, id, p) && t == Snapshotted(s, id, p) && NoOverlap(s, Snapshot(id, p)) && FlightsOk(s)
    ensures FlightsOk(t)
  {
  }

  lemma LandKeepsFlights(s: State, t: State, id: nat, keys: set<nat>)
    requires CanLand(s, id, keys) && t == Landed(s, id, keys) && FlightsOk(s)
    ensures FlightsOk(t)
  {
    assert FlightOk(s, s.flights[id]);
    forall i | i in t.flights ensures FlightOk(t, t.flights[i]) {
      assert FlightOk(s, s.flights[i]);
    }
  }

  lemma LandKeepsFetches(s: State, t: State, id: nat, keys: set<nat>)
    requires CanLand(s, id, keys) && t == Landed(s, id, keys) && FlightsOk(s) && FetchesOk(s) && s.dirty <= s.present
    ensures FetchesOk(t)
  {
    assert FlightOk(s, s.flights[id]);
    forall i | i in t.fetches ensures FetchOk(t, t.fetches[i]) {
      assert FetchOk(s, s.fetches[i]);
    }
  }

  /** An upload only touches a dirty page of the blob, which no reader sees. */
  lemma LandKeepsView(s: State, t: State, id: nat, keys: set<nat>)
    requires CanLand(s, id, keys) && t == Landed(s, id, keys) && FlightsOk(s) && CleanIsBlob(s)
    requires s.dirty <= s.present
    ensures CleanIsBlob(t) && forall k: nat | k < |s.blob| :: At(t, k) == At(s, k)
  {
  }

  lemma FinishKeeps(s: State, t: State, id: nat)
    requires CanFinish(s, id) && t == Finished(s, id) && FlightsOk(s) && CleanIsBlob(s)
    requires NoWrap(s, Finish(id))
    ensures FlightsOk(t) && CleanIsBlob(t)
  {
    var f := s.flights[id];
    assert FlightOk(s, f);
    if SameGeneration(s, f) {
      WrapFree(s.Gen(f.page), f.gen);
    }
    forall i | i in t.flights ensures FlightOk(t, t.flights[i]) {
      assert FlightOk(s, s.flights[i]);
    }
  }

  lemma WrapFree(now: nat, was: nat)
    requires was <= now < was + GENERATIONS && now % GENERATIONS == was % GENERATIONS
    ensures now == was
  {
  }

  lemma FailKeeps(s: State, t: State, id: nat)
    requires s.Shape() && t == s.(flights := s.flights - {id}) && FlightsOk(s)
    ensures FlightsOk(t)
  {
  }

  lemma EvictKeepsRest(s: State, t: State, p: nat)
    requires CanEvict(s, p) && t == Evicted(s, p) && FlightsOk(s) && FetchesOk(s) && NoStaleFetch(s, Evict(p))
    ensures FlightsOk(t) && FetchesOk(t)
  {
    forall i | i in t.flights ensures FlightOk(t, t.flights[i]) {
      assert FlightOk(s, s.flights[i]);
    }
    forall i | i in t.fetches ensures FetchOk(t, t.fetches[i]) {
      assert FetchOk(s, s.fetches[i]);
    }
  }

  lemma EvictKeepsView(s: State, t: State, p: nat)
    requires CanEvict(s, p) && t == Evicted(s, p) && CleanIsBlob(s)
    ensures CleanIsBlob(t) && forall k: nat | k < |s.blob| :: At(t, k) == At(s, k)
  {
  }

  predicate IsClientLabel(l: Label) {
    || l.BeginRead? || l.ReadPart? || l.EndRead? || l.AbortRead?
    || l.BeginWrite? || l.PutData? || l.MarkDirty? || l.EndWrite? || l.AbortWrite?
  }

  predicate IsFetchLabel(l: Label) {
    l.FetchStart? || l.FetchPart? || l.FetchPut? || l.FetchMark? || l.FetchDrop?
  }

  lemma ClientStepKeepsInv(s: State, l: Label)
    requires Inv(s) && Enabled(s, l) && IsClientLabel(l)
    ensures Inv(Next(s, l))
  {
    var t := Next(s, l);
    if l.PutData? {
      PutDataKeepsClean(s, t, l.page, l.keys);
      PutDataKeepsFlights(s, t, l.page, l.keys);
      PutDataKeepsFetches(s, t, l.page, l.keys);
      PutDataKeepsWriter(s, t, l.page, l.keys);
      PutDataKeepsView(s, t, l.page, l.keys);
    } else if l.MarkDirty? {
      MarkDirtyKeepsClean(s, t, l.page);
      MarkDirtyKeepsFlights(s, t, l.page);
      MarkDirtyKeepsFetches(s, t, l.page);
      MarkDirtyKeepsWriter(s, t, l.page);
      MarkDirtyKeepsView(s, t, l.page);
    } else {
      ClientMoveKeeps(s, t);
      if l.ReadPart? {
        ReadPartKeeps(s, t, l.page, l.keys);
      }
    }
  }

  lemma FetchStepKeepsInv(s: State, l: Label)
    requires Inv(s) && Enabled(s, l) && IsFetchLabel(l)
    ensures Inv(Next(s, l)) && forall k: nat | k < |s.blob| :: At(Next(s, l), k) == At(s, k)
  {
    var t := Next(s, l);
    if l.FetchPut? {
      FetchPutKeepsFlights(s, t, l.id, l.keys);
      FetchPutKeepsFetches(s, t, l.id, l.keys);
      FetchPutKeepsView(s, t, l.id, l.keys);
    } else if l.FetchMark? {
      FetchMarkKeepsRest(s, t, l.id);
      FetchMarkKeepsView(s, t, l.id);
    } else {
      FetchMoveKeeps(s, t);
      if l.FetchPart? {
        FetchPartKeeps(s, t, l.id, l.keys);
      } else {
        FetchStepKeeps(s, t, l.id);
      }
    }
    SameViewKeepsClient(s, t);
  }

  lemma FlushStepKeepsInv(s: State, l: Label)
    requires Inv(s) && Enabled(s, l) && !IsClientLabel(l) && !IsFetchLabel(l) && Disciplined(s, l)
    ensures Inv(Next(s, l)) && forall k: nat | k < |s.blob| :: At(Next(s, l), k) == At(s, k)
  {
    var t := Next(s, l);
    if l.Land? {
      LandKeepsFlights(s, t, l.id, l.keys);
      LandKeepsFetches(s, t, l.id, l.keys);
      LandKeepsView(s, t, l.id, l.keys);
    } else if l.Evict? {
      EvictKeepsRest(s, t, l.page);
      EvictKeepsView(s, t, l.page);
    } else {
      FlightMoveKeeps(s, t);
      if l.Snapshot? {
        SnapshotKeeps(s, t, l.id, l.page);
      } else if l.Finish? {
        FinishKeeps(s, t, l.id);
      } else {
        FailKeeps(s, t, l.id);
      }
    }
    SameViewKeepsClient(s, t);
  }

  /** What a step writes to the flat device: all of a write that ends, the finished chunks of one that fails. */
  ghost function Written(s: State, l: Label): Image
    requires Enabled(s, l)
  {
    if l.EndWrite? then s.client.img
    else if l.AbortWrite? then Restrict(s.client.img, s.client.done)
    else map[]
  }

  /** What a step means for the flat device: a write that is over applies, a finished read returns its bytes. */
  ghost predicate FlatStep(s: State, l: Label)
    requires Enabled(s, l) && Next(s, l).Shape()
  {
    && Flat(Next(s, l)) == Overlay(Flat(s), Written(s, l))
    && (l.EndRead? ==> s.client.got == Cut(Flat(s), s.client.keys))
  }

  /** The invariant is kept, and no step but the end of a write, in success or failure, changes the flat device. */
  lemma StepRefines(s: State, l: Label)
    requires Inv(s) && Enabled(s, l) && Disciplined(s, l)
    ensures Inv(Next(s, l)) && FlatStep(s, l)
  {
    if IsClientLabel(l) {
      ClientStepKeepsInv(s, l);
      ClientStepFlat(s, l);
    } else {
      if IsFetchLabel(l) {
        FetchStepKeepsInv(s, l);
      } else {
        FlushStepKeepsInv(s, l);
      }
      SameViewSameFlat(s, Next(s, l));
    }
    NothingWritten(Flat(s));
  }

  lemma NothingWritten(v: seq<Byte>)
    ensures Overlay(v, map[]) == v
  {
  }

  lemma SameViewSameFlat(s: State, t: State)
    requires s.Shape() && t.Shape() && t.pg == s.pg && t.client == s.client
    requires forall k: nat | k < |s.blob| :: At(t, k) == At(s, k)
    ensures Flat(t) == Flat(s)
  {
  }

  lemma ClientStepFlat(s: State, l: Label)
    requires s.Shape() && ClientOk(s) && Enabled(s, l) && IsClientLabel(l)
    ensures Next(s, l).Shape() && FlatStep(s, l)
  {
    var t := Next(s, l);
    if l.EndWrite? || l.AbortWrite? {
      forall k: nat | k < |s.blob| ensures View(t)[k] == Overlay(Flat(s), Written(s, l))[k] {
        assert At(t, k) == At(s, k) == WriterByte(s, k);
      }
      assert View(t) == Overlay(Flat(s), Written(s, l));
    } else if !l.PutData? && !l.MarkDirty? {
      assert View(t) == View(s);
      if l.EndRead? {
        assert s.client.got == Cut(Flat(s), s.client.keys);
      }
    }
  }
}
