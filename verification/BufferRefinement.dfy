/**
  The memory buffer refines a flat byte array: chunk by chunk for any number of clients when nothing is
  evicted, and across evictions and reloads with one client operation at a time.
*/
module BufferRefinement {
  import opened Store
  import opened Buffer

  // ----- Invariants -----

  ghost predicate LoadOk(s: State, w: Load)
    requires s.Shape()
  {
    && w.img.Keys <= PageKeys(s.pg, w.page)
    && (w.page !in s.pages ==> forall k | k in w.img :: s.inner[k] == w.img[k])
  }

  ghost predicate LoadsOk(s: State)
    requires s.Shape()
  {
    forall id | id in s.loads :: LoadOk(s, s.loads[id])
  }

  /** Only resident pages are being uploaded. */
  ghost predicate FlightsResident(s: State)
    requires s.Shape()
  {
    forall id | id in s.flights ::
      s.flights[id].page in s.pages && s.flights[id].img.Keys == PageKeys(s.pg, s.flights[id].page)
  }

  /** What holds with no eviction, whatever the clients and flushes do. */
  ghost predicate Inv(s: State) { s.Shape() && LoadsOk(s) && FlightsResident(s) }

  ghost predicate CleanIsInner(s: State)
    requires s.Shape()
  {
    forall k: nat | k < |s.inner| && s.pg[k] in s.pages && !s.pages[s.pg[k]].dirty :: At(s, k) == s.inner[k]
  }

  ghost predicate FlightOk(s: State, f: Flight)
    requires s.Shape()
  {
    && s.Dirty(f.page)
    && f.img.Keys == PageKeys(s.pg, f.page)
    && f.seqNo <= s.pages[f.page].seqNo
    && f.landed <= f.img.Keys
    && (forall k | k in f.landed :: s.inner[k] == f.img[k])
    && (f.seqNo == s.pages[f.page].seqNo ==> s.pages[f.page].data == f.img)
  }

  ghost predicate FlightsOk(s: State)
    requires s.Shape()
  {
    && (forall id | id in s.flights :: FlightOk(s, s.flights[id]))
    && (forall i, j | i in s.flights && j in s.flights && i != j :: s.flights[i].page != s.flights[j].page)
  }

  ghost predicate Numbered(s: State) { forall p | p in s.pages :: s.pages[p].seqNo <= s.counter }

  /** The one load that may be on its way is for a page that is not resident. */
  ghost predicate OneLoad(s: State) {
    && (forall i, j | i in s.loads && j in s.loads :: i == j)
    && (forall id | id in s.loads :: s.loads[id].page !in s.pages)
  }

  /** What holds with eviction and one client operation at a time. */
  ghost predicate SerialInv(s: State) {
    s.Shape() && LoadsOk(s) && FlightsOk(s) && CleanIsInner(s) && Numbered(s) && OneLoad(s)
  }

  /** What a step means for the flat device: an applied chunk is written, a served chunk is read. */
  ghost predicate FlatStep(s: State, l: Label)
    requires Enabled(s, l) && Next(s, l).Shape()
  {
    && View(Next(s, l)) == (if l.Apply? then Overlay(View(s), l.img) else View(s))
    && (l.Serve? ==> Served(s, l.page, l.keys) == Cut(View(s), l.keys))
  }

  // ----- No eviction -----

  lemma ApplyFlat(s: State, t: State, p: nat, img: Image)
    requires Enabled(s, Apply(p, img)) && t == Applied(s, p, img)
    ensures t.Shape() && View(t) == Overlay(View(s), img)
  {
  }

  lemma SameView(s: State, t: State)
    requires s.Shape() && t.Shape() && t.pg == s.pg && forall k: nat | k < |s.inner| :: At(t, k) == At(s, k)
    ensures View(t) == View(s)
  {
  }

  lemma LandLoads(s: State, t: State, id: nat, keys: set<nat>)
    requires Enabled(s, Land(id, keys)) && t == Landed(s, id, keys) && LoadsOk(s)
    requires s.flights[id].page in s.pages && s.flights[id].img.Keys == PageKeys(s.pg, s.flights[id].page)
    ensures t.Shape() && LoadsOk(t) && forall k: nat | k < |s.inner| :: At(t, k) == At(s, k)
  {
  }

  lemma InsertLoads(s: State, t: State, id: nat)
    requires Enabled(s, LoadInsert(id)) && t == Inserted(s, id) && LoadsOk(s)
    ensures t.Shape() && LoadsOk(t) && forall k: nat | k < |s.inner| :: At(t, k) == At(s, k)
  {
  }

  lemma LoadPartLoads(s: State, t: State, id: nat, keys: set<nat>)
    requires Enabled(s, LoadPart(id, keys)) && t == LoadedPart(s, id, keys) && LoadsOk(s)
    ensures t.Shape() && LoadsOk(t) && forall k: nat | k < |s.inner| :: At(t, k) == At(s, k)
  {
  }

  /** Steps that change neither the inner store nor any page's bytes nor which pages are resident. */
  lemma QuietLoads(s: State, t: State)
    requires s.Shape() && t.pg == s.pg && t.inner == s.inner && LoadsOk(s)
    requires t.pages.Keys == s.pages.Keys && forall p | p in s.pages :: t.pages[p].data == s.pages[p].data
    requires forall id | id in t.loads :: (id in s.loads && t.loads[id] == s.loads[id]) || t.loads[id].img == map[]
    ensures t.Shape() && LoadsOk(t) && forall k: nat | k < |s.inner| :: At(t, k) == At(s, k)
  {
  }

  lemma ApplyLoads(s: State, t: State, p: nat, img: Image)
    requires Enabled(s, Apply(p, img)) && t == Applied(s, p, img) && LoadsOk(s)
    ensures t.Shape() && LoadsOk(t)
  {
  }

  lemma StepShows(s: State, l: Label)
    requires Inv(s) && Enabled(s, l) && NoEviction(s, l)
    ensures Next(s, l).Shape() && LoadsOk(Next(s, l)) && FlatStep(s, l)
  {
    hide LoadsOk, View, At;
    var t := Next(s, l);
    if l.Apply? {
      ApplyLoads(s, t, l.page, l.img);
      ApplyFlat(s, t, l.page, l.img);
    } else {
      if l.Land? {
        LandLoads(s, t, l.id, l.keys);
      } else if l.LoadInsert? {
        InsertLoads(s, t, l.id);
      } else if l.LoadPart? {
        LoadPartLoads(s, t, l.id, l.keys);
      } else {
        QuietStepLoads(s, l);
      }
      SameView(s, t);
      if l.Serve? { ServeShows(s, l.page, l.keys); }
    }
  }

  lemma QuietStepLoads(s: State, l: Label)
    requires Enabled(s, l) && LoadsOk(s) && !l.Apply? && !l.Land? && !l.LoadInsert? && !l.LoadPart? && !l.Evict?
    ensures var t := Next(s, l);
      t.Shape() && t.pg == s.pg && LoadsOk(t) && forall k: nat | k < |s.inner| :: At(t, k) == At(s, k)
  {
    hide LoadsOk, At;
    QuietLoads(s, Next(s, l));
  }

  lemma ServeShows(s: State, p: nat, keys: set<nat>)
    requires Enabled(s, Serve(p, keys))
    ensures Served(s, p, keys) == Cut(View(s), keys)
  {
  }

  /** With no eviction, any interleaving of clients and flushes, overlapping or not, keeps the flat device. */
  lemma StepRefines(s: State, l: Label)
    requires Inv(s) && Enabled(s, l) && NoEviction(s, l)
    ensures Inv(Next(s, l)) && FlatStep(s, l)
  {
    StepShows(s, l);
  }

  // ----- Eviction, one client operation at a time -----

  lemma ApplySerial(s: State, t: State, p: nat, img: Image)
    requires Enabled(s, Apply(p, img)) && t == Applied(s, p, img) && FlightsOk(s) && CleanIsInner(s) && Numbered(s)
    ensures t.Shape() && FlightsOk(t) && CleanIsInner(t) && Numbered(t)
  {
    forall i | i in t.flights ensures FlightOk(t, t.flights[i]) {
      assert FlightOk(s, s.flights[i]);
    }
    forall k: nat | k < |s.inner| && t.pg[k] in t.pages && !t.pages[t.pg[k]].dirty ensures At(t, k) == t.inner[k] {
      assert At(s, k) == s.inner[k];
    }
  }

  lemma InsertSerial(s: State, t: State, id: nat)
    requires Enabled(s, LoadInsert(id)) && t == Inserted(s, id)
    requires FlightsOk(s) && CleanIsInner(s) && Numbered(s) && LoadsOk(s)
    ensures t.Shape() && FlightsOk(t) && CleanIsInner(t) && Numbered(t)
  {
    assert LoadOk(s, s.loads[id]);
    forall i | i in t.flights ensures FlightOk(t, t.flights[i]) {
      assert FlightOk(s, s.flights[i]);
    }
    forall k: nat | k < |s.inner| && t.pg[k] in t.pages && !t.pages[t.pg[k]].dirty ensures At(t, k) == t.inner[k] {
      assert s.pg[k] in s.pages ==> At(s, k) == At(t, k);
    }
  }

  lemma SnapshotSerial(s: State, t: State, id: nat, p: nat)
    requires Enabled(s, Snapshot(id, p)) && t == Snapshotted(s, id, p) && NoOverlap(s, Snapshot(id, p)) && FlightsOk(s)
    ensures t.Shape() && FlightsOk(t)
  {
    forall i | i in t.flights ensures FlightOk(t, t.flights[i]) {
      if i != id {
        assert FlightOk(s, s.flights[i]);
      }
    }
  }

  lemma LandFlights(s: State, t: State, id: nat, keys: set<nat>)
    requires Enabled(s, Land(id, keys)) && t == Landed(s, id, keys) && FlightsOk(s)
    ensures t.Shape() && FlightsOk(t)
  {
    assert FlightOk(s, s.flights[id]);
    forall i | i in t.flights ensures FlightOk(t, t.flights[i]) {
      assert FlightOk(s, s.flights[i]);
    }
  }

  lemma LandSerial(s: State, t: State, id: nat, keys: set<nat>)
    requires Enabled(s, Land(id, keys)) && t == Landed(s, id, keys) && FlightsOk(s) && CleanIsInner(s)
    ensures t.Shape() && FlightsOk(t) && CleanIsInner(t)
  {
    LandFlights(s, t, id, keys);
    assert FlightOk(s, s.flights[id]);
    forall k: nat | k < |s.inner| && t.pg[k] in t.pages && !t.pages[t.pg[k]].dirty ensures At(t, k) == t.inner[k] {
      assert At(s, k) == s.inner[k];
    }
  }

  lemma FinishSerial(s: State, t: State, id: nat)
    requires Enabled(s, Finish(id)) && t == Finished(s, id) && FlightsOk(s) && CleanIsInner(s)
    ensures t.Shape() && FlightsOk(t) && CleanIsInner(t)
  {
    var f := s.flights[id];
    assert FlightOk(s, f);
    forall i | i in t.flights ensures FlightOk(t, t.flights[i]) {
      assert FlightOk(s, s.flights[i]);
    }
    forall k: nat | k < |s.inner| && t.pg[k] in t.pages && !t.pages[t.pg[k]].dirty ensures At(t, k) == t.inner[k] {
      assert At(t, k) == At(s, k);
      assert s.pg[k] == f.page ==> k in f.img;
    }
  }

  lemma EvictSerial(s: State, t: State, p: nat)
    requires Enabled(s, Evict(p)) && t == s.(pages := s.pages - {p})
    requires LoadsOk(s) && FlightsOk(s) && CleanIsInner(s) && OneLoad(s)
    ensures t.Shape() && LoadsOk(t) && FlightsOk(t) && CleanIsInner(t)
    ensures forall k: nat | k < |s.inner| :: At(t, k) == At(s, k)
  {
  }

  /** Steps that move only loads and drop flights. */
  lemma MoveSerial(s: State, t: State)
    requires s.Shape() && t == s.(loads := t.loads, flights := t.flights) && FlightsOk(s) && CleanIsInner(s)
    requires forall id | id in t.flights :: id in s.flights && t.flights[id] == s.flights[id]
    ensures t.Shape() && FlightsOk(t) && CleanIsInner(t)
  {
  }

  lemma SerialStepKeepsFlights(s: State, l: Label)
    requires SerialInv(s) && Enabled(s, l) && NoOverlap(s, l) && Serial(s, l)
    ensures Next(s, l).Shape() && FlightsOk(Next(s, l)) && CleanIsInner(Next(s, l)) && Numbered(Next(s, l))
  {
    var t := Next(s, l);
    if l.Apply? {
      ApplySerial(s, t, l.page, l.img);
    } else if l.LoadInsert? {
      InsertSerial(s, t, l.id);
    } else if l.Snapshot? {
      SnapshotSerial(s, t, l.id, l.page);
    } else if l.Land? {
      LandSerial(s, t, l.id, l.keys);
    } else if l.Finish? {
      FinishSerial(s, t, l.id);
    } else if l.Evict? {
      EvictSerial(s, t, l.page);
    } else {
      MoveSerial(s, t);
    }
  }

  /**
    With one client operation at a time and no overlapping flushes, eviction and reloading keep the flat
    device, and a page whose inner content is out of date is resident and dirty.
  */
  lemma SerialStepRefines(s: State, l: Label)
    requires SerialInv(s) && Enabled(s, l) && NoOverlap(s, l) && Serial(s, l)
    ensures SerialInv(Next(s, l)) && FlatStep(s, l)
  {
    SerialStepKeepsFlights(s, l);
    var t := Next(s, l);
    if l.Evict? {
      EvictSerial(s, t, l.page);
      SameView(s, t);
    } else {
      FlightsAreResident(s);
      StepShows(s, l);
    }
    assert OneLoad(t);
  }

  lemma FlightsAreResident(s: State)
    requires SerialInv(s)
    ensures Inv(s)
  {
  }
}
