/** A top-level flush of the whole stack can be completed from every reachable state, and then the blob is the device. */
module StackLive {
  import opened Store
  import opened Stack
  import FC = FileCache
  import FCR = FileCacheRefinement
  import FCRuns = FileCacheRuns
  import FL = FileCacheLive
  import B = Buffer
  import BR = BufferRefinement
  import BRuns = BufferRuns

  /** A disciplined run from `first`, without client writes, that has come to `s`. */
  ghost predicate Reaches(r: Run, first: State, s: State) {
    r.Valid() && r.Serial() && r.First() == first && Inv(first) && r.NoApply() && r.End() == s
  }

  lemma ReachesInv(r: Run, first: State, s: State)
    requires Reaches(r, first, s)
    ensures Inv(s) && Ordered(s) && Ordered(first) && Flat(s) == Flat(first)
  {
    hide Inv, Enabled, Next, Disciplined;
    RunRefinesFlat(r);
    Unpacked(s);
    Unpacked(first);
    FlatStays(r);
  }

  /** What the invariant gives. */
  ghost predicate Ordered(s: State) {
    && s.fc.Shape() && s.buf.Shape() && UserOk(s) && s.fc.dirty <= s.fc.present && |s.buf.pg| == |s.fc.pg|
    && s.buf.inner == FC.View(s.fc)
  }

  lemma Unpacked(s: State)
    requires Inv(s)
    ensures Ordered(s)
  {
  }

  lemma {:induction false} FlatStays(r: Run)
    requires r.NoApply() && r.First().buf.Shape()
    ensures r.Replayed() == Flat(r.First())
  {
    if r.Then? {
      FlatStays(r.prev);
      assert Written(r.l) == map[];
    }
  }

  // ----- One step of either layer -----

  lemma BelowStep(r: Run, first: State, s: State, c: FC.Label, f: FC.State) returns (g: Run, t: State)
    requires Reaches(r, first, s) && !c.BeginWrite? && !c.BeginRead?
    requires FC.Enabled(s.fc, c) && FC.Disciplined(s.fc, c) && f == FC.Next(s.fc, c)
    ensures Enabled(s, Below(c)) && t == State(Above(s, c), f, if EndsCall(c) then Nobody else s.user)
    ensures Reaches(g, first, t)
  {
    hide Inv, FC.Enabled, FC.Next, FC.Disciplined, B.Enabled, B.Next;
    ReachesInv(r, first, s);
    BelowEnabled(s, c);
    g, t := Then(r, Below(c)), Next(s, Below(c));
  }

  lemma BelowEnabled(s: State, c: FC.Label)
    requires Ordered(s) && !c.BeginWrite? && !c.BeginRead? && FC.Enabled(s.fc, c) && FC.Disciplined(s.fc, c)
    ensures Enabled(s, Below(c)) && Disciplined(s, Below(c))
  {
    hide FC.Enabled, FC.Disciplined;
  }

  /** A step that the buffer does not see. */
  lemma QuietBelow(r: Run, first: State, s: State, c: FC.Label, f: FC.State) returns (g: Run, t: State)
    requires Reaches(r, first, s) && !c.BeginWrite? && !c.BeginRead? && !c.PutData? && !c.MarkDirty? && !c.ReadPart? && !EndsCall(c)
    requires FC.Enabled(s.fc, c) && FC.Disciplined(s.fc, c) && f == FC.Next(s.fc, c)
    ensures Reaches(g, first, t) && t == s.(fc := f)
  {
    hide Reaches, FC.Enabled, FC.Next, FC.Disciplined;
    g, t := BelowStep(r, first, s, c, f);
  }

  lemma TopStep(r: Run, first: State, s: State, b: B.Label, u: B.State) returns (g: Run, t: State)
    requires Reaches(r, first, s) && IsTop(b) && !Frees(s.user, b) && !b.Apply? && !b.LoadStart?
    requires B.Enabled(s.buf, b) && u == B.Next(s.buf, b) && B.NoOverlap(s.buf, b)
    ensures Reaches(g, first, t) && t == s.(buf := u)
  {
    hide Inv, B.Enabled, B.Next, FC.Enabled, FC.Next, FC.Disciplined;
    ReachesInv(r, first, s);
    g, t := Then(r, Top(b)), s.(buf := u);
  }

  // ----- The disk cache takes one page of the buffer -----

  /** The upload `f` of the buffer has been taken as far as `done`. */
  ghost predicate Sending(s: State, b: B.State, f: B.Flight, done: set<nat>, before: seq<Byte>) {
    && s.user == Uploading(0) && FL.Between(s.fc, f.img, done, before)
    && s.buf == b.(inner := s.buf.inner, flights := map[0 := f.(landed := done)])
  }

  lemma FetchOne(r: Run, first: State, s: State, p: nat) returns (g: Run, t: State)
    requires Reaches(r, first, s) && s.fc.Calm() && s.fc.fetches == map[] && p in s.fc.pg && p !in s.fc.present
    ensures Reaches(g, first, t) && t == s.(fc := t.fc) && t.fc == s.fc.(data := t.fc.data, present := s.fc.present + {p})
  {
    hide Reaches, FC.Enabled, FC.Next, FC.Disciplined, FL.Fetching;
    ReachesInv(r, first, s);
    var fc := s.fc;
    var keys := PageKeys(fc.pg, p);
    var img := Cut(fc.blob, keys);
    var u := fc.(data := Overlay(fc.data, img));
    FL.FetchBegins(fc, p);
    FL.FetchArrives(fc, p);
    FL.FetchPuts(fc, p);
    FL.FetchMarks(u, p, img);
    FL.FetchingData(fc, p, img, keys, u);
    g, t := QuietBelow(r, first, s, FC.FetchStart(0, p), FL.Fetching(fc, p, map[], {}));
    g, t := QuietBelow(g, first, t, FC.FetchPart(0, keys), FL.Fetching(fc, p, img, {}));
    g, t := QuietBelow(g, first, t, FC.FetchPut(0, keys), FL.Fetching(u, p, img, keys));
    g, t := QuietBelow(g, first, t, FC.FetchMark(0), u.(present := fc.present + {p}));
  }

  /** Bytes put on a present page are shown to the buffer; marking the page then shows nothing more. */
  lemma AboveIs(s: State, b: B.State, f: B.Flight, done: set<nat>, p: nat, keys: set<nat>)
    requires s.user == Uploading(0) && s.buf == b.(inner := s.buf.inner, flights := map[0 := f.(landed := done)]) && p in s.fc.present
    ensures Enabled(s, Below(FC.PutData(p, keys))) ==>
              var t := Above(s, FC.PutData(p, keys)); t == b.(inner := t.inner, flights := map[0 := f.(landed := done + keys)])
    ensures Enabled(s, Below(FC.MarkDirty(p))) ==>
              var t := Above(s, FC.MarkDirty(p)); t == b.(inner := t.inner, flights := map[0 := f.(landed := done)])
  {
    hide Enabled;
    assert done + {} == done;
    assert map[0 := f.(landed := done)][0 := f.(landed := done + keys)] == map[0 := f.(landed := done + keys)];
    assert map[0 := f.(landed := done)][0 := f.(landed := done)] == map[0 := f.(landed := done)];
  }

  lemma PutStep(r: Run, first: State, s: State, b: B.State, f: B.Flight, done: set<nat>, before: seq<Byte>, p: nat, c: set<nat>)
    returns (g: Run, t: State)
    requires Reaches(r, first, s) && Sending(s, b, f, done, before) && p in s.fc.present
    requires c == FL.Chunk(s.fc.pg, f.img, p) && c !! done
    ensures Reaches(g, first, t) && t.user == Uploading(0)
    ensures t.fc == FL.Writing(s.fc, f.img, done, c, before).(data := Overlay(s.fc.data, Restrict(f.img, c)))
    ensures t.buf == b.(inner := t.buf.inner, flights := map[0 := f.(landed := done + c)])
  {
    hide Reaches, FC.Enabled, FC.Next, FC.Disciplined, FL.Chunk, Above, FL.Whole, Enabled;
    ReachesInv(r, first, s);
    FL.Puts(s.fc, f.img, done, before, p);
    assert FL.Writing(s.fc, f.img, done, {}, before) == s.fc;
    AboveIs(s, b, f, done, p, c);
    g, t := BelowStep(r, first, s, FC.PutData(p, c), FL.Writing(s.fc, f.img, done, c, before).(data := Overlay(s.fc.data, Restrict(f.img, c))));
  }

  lemma MarkStep(r: Run, first: State, s: State, b: B.State, f: B.Flight, done: set<nat>, before: seq<Byte>, p: nat, c: set<nat>)
    returns (g: Run, t: State)
    requires Reaches(r, first, s) && s.user == Uploading(0) && p in s.fc.present && c == FL.Chunk(s.fc.pg, f.img, p) && c != {}
    requires s.fc.client == FC.Writer(f.img, done, c, before)
    requires s.buf == b.(inner := s.buf.inner, flights := map[0 := f.(landed := done + c)])
    ensures Reaches(g, first, t) && t.user == Uploading(0) && t.fc.client == FC.Writer(f.img, done + c, {}, before)
    ensures t.fc.flights == s.fc.flights && t.fc.fetches == s.fc.fetches && t.fc.pg == s.fc.pg
    ensures t.buf == b.(inner := t.buf.inner, flights := map[0 := f.(landed := done + c)])
  {
    hide Reaches, FC.Enabled, FC.Next, FC.Disciplined, FL.Chunk, Above, FL.Whole, Enabled;
    ReachesInv(r, first, s);
    var fc := s.fc;
    FL.Marks(fc, f.img, done, before, p);
    assert FL.Writing(fc, f.img, done, c, before) == fc;
    AboveIs(s, b, f, done + c, p, {});
    g, t := BelowStep(r, first, s, FC.MarkDirty(p),
                      FL.Writing(fc, f.img, done + c, {}, before).(present := fc.present + {p}, dirty := fc.dirty + {p}, gens := fc.gens[p := fc.Gen(p) + 1]));
  }

  lemma PutOne(r: Run, first: State, s: State, b: B.State, f: B.Flight, done: set<nat>, before: seq<Byte>, p: nat) returns (g: Run, t: State)
    requires Reaches(r, first, s) && Sending(s, b, f, done, before) && p in s.fc.present
    requires FL.Chunk(s.fc.pg, f.img, p) !! done && FL.Chunk(s.fc.pg, f.img, p) != {}
    ensures Reaches(g, first, t) && Sending(t, b, f, done + FL.Chunk(s.fc.pg, f.img, p), before) && t.fc.pg == s.fc.pg
  {
    hide Reaches, FL.Chunk, FL.Whole;
    var c := FL.Chunk(s.fc.pg, f.img, p);
    FL.WholeMore(s.fc.pg, f.img, done, p);
    g, t := PutStep(r, first, s, b, f, done, before, p, c);
    g, t := MarkStep(g, first, t, b, f, done, before, p, c);
  }

  lemma {:induction false} SendOn(r: Run, first: State, s: State, b: B.State, f: B.Flight, done: set<nat>, before: seq<Byte>) returns (g: Run, t: State)
    requires Reaches(r, first, s) && Sending(s, b, f, done, before)
    ensures Reaches(g, first, t) && Sending(t, b, f, f.img.Keys, before)
    decreases f.img.Keys - done
  {
    hide Reaches;
    if f.img.Keys <= done {
      assert done == f.img.Keys;
      return r, s;
    }
    var k :| k in f.img && k !in done;
    var p := s.fc.pg[k];
    assert k in FL.Chunk(s.fc.pg, f.img, p);
    assert FL.Chunk(s.fc.pg, f.img, p) !! done;
    g, t := r, s;
    if p !in s.fc.present { g, t := FetchOne(r, first, s, p); }
    g, t := PutOne(g, first, t, b, f, done, before, p);
    g, t := SendOn(g, first, t, b, f, done + FL.Chunk(s.fc.pg, f.img, p), before);
  }

  // ----- The buffer's flush -----

  /** Nothing is going on in either layer. */
  predicate Resting(s: State) { s.user.Nobody? && s.buf.flights == map[] && s.buf.loads == map[] && FL.Resting(s.fc) }

  /** The upload of page `p`. */
  function FlightOf(b: B.State, p: nat, landed: set<nat>): B.Flight
    requires p in b.pages
  {
    B.Flight(p, b.pages[p].seqNo, b.pages[p].data, landed)
  }

  /** The buffer once page `p` is clean. */
  function Cleaned(b: B.State, p: nat, inner: seq<Byte>): B.State
    requires p in b.pages
  {
    b.(inner := inner, pages := b.pages[p := b.pages[p].(dirty := false)])
  }

  lemma Snapshots(b: B.State, p: nat)
    requires b.Shape() && b.flights == map[] && b.Dirty(p)
    ensures B.Enabled(b, B.Snapshot(0, p)) && B.NoOverlap(b, B.Snapshot(0, p))
    ensures B.Next(b, B.Snapshot(0, p)) == b.(flights := map[0 := FlightOf(b, p, {})])
  {
    assert b.flights[0 := FlightOf(b, p, {})] == map[0 := FlightOf(b, p, {})];
  }

  lemma Finishes(b: B.State, p: nat, inner: seq<Byte>)
    requires b.flights == map[] && p in b.pages
    ensures var v := b.(inner := inner, flights := map[0 := FlightOf(b, p, b.pages[p].data.Keys)]);
      v.Shape() ==>
        && B.Enabled(v, B.Finish(0)) && B.NoOverlap(v, B.Finish(0))
        && B.Next(v, B.Finish(0)) == Cleaned(b, p, inner)
  {
    assert map[0 := FlightOf(b, p, b.pages[p].data.Keys)] - {0} == map[];
  }

  lemma UploadStep(r: Run, first: State, s: State, b: B.State, p: nat) returns (g: Run, t: State)
    requires Reaches(r, first, s) && s.user.Nobody? && FL.Resting(s.fc) && p in b.pages
    requires s.buf == b.(flights := map[0 := FlightOf(b, p, {})])
    ensures Reaches(g, first, t) && s.fc.Shape() && Sending(t, b, FlightOf(b, p, {}), {}, FC.View(s.fc))
  {
    hide Inv, FC.Next, FC.View, B.Next, FC.Disciplined;
    ReachesInv(r, first, s);
    var img := b.pages[p].data;
    assert img.Keys == PageKeys(b.pg, p);
    FL.Begins(s.fc, img);
    g, t := Then(r, Upload(0)), Next(s, Upload(0));
    assert map[0 := FlightOf(b, p, {})] == map[0 := FlightOf(b, p, {}).(landed := {})];
  }

  lemma EndStep(r: Run, first: State, s: State, b: B.State, f: B.Flight, before: seq<Byte>) returns (g: Run, t: State)
    requires Reaches(r, first, s) && Sending(s, b, f, f.img.Keys, before)
    ensures Reaches(g, first, t) && t.user.Nobody? && FL.Resting(t.fc) && t.buf == s.buf
  {
    hide Reaches, Inv, FC.Enabled, FC.Next, FC.Disciplined;
    ReachesInv(r, first, s);
    CacheInv(s);
    FL.Ends(s.fc, f.img, before);
    g, t := BelowStep(r, first, s, FC.EndWrite, s.fc.(client := FC.Idle));
  }

  lemma CacheInv(s: State)
    requires Inv(s)
    ensures FCR.Inv(s.fc)
  {
  }

  /** One dirty page of the buffer goes to the disk cache. */
  lemma SendPage(r: Run, first: State, s: State, p: nat) returns (g: Run, t: State)
    requires Reaches(r, first, s) && Resting(s) && s.buf.Dirty(p)
    ensures Reaches(g, first, t) && Resting(t) && t.buf == Cleaned(s.buf, p, t.buf.inner)
  {
    hide Reaches, B.Enabled, B.Next, Cleaned;
    ReachesInv(r, first, s);
    var b, f := s.buf, FlightOf(s.buf, p, {});
    Snapshots(b, p);
    g, t := TopStep(r, first, s, B.Snapshot(0, p), b.(flights := map[0 := f]));
    g, t := UploadStep(g, first, t, b, p);
    var before := t.fc.client.before;
    g, t := SendOn(g, first, t, b, f, {}, before);
    g, t := EndStep(g, first, t, b, f, before);
    ReachesInv(g, first, t);
    Finishes(b, p, t.buf.inner);
    g, t := TopStep(g, first, t, B.Finish(0), Cleaned(b, p, t.buf.inner));
    CleanedIs(b, p, t.buf);
  }

  lemma CleanedIs(b: B.State, p: nat, t: B.State)
    requires p in b.pages && b.flights == map[] && b.loads == map[] && (exists inner :: t == Cleaned(b, p, inner))
    ensures t == Cleaned(b, p, t.inner) && t.flights == map[] && t.loads == map[]
    ensures BRuns.DirtyPages(t) == BRuns.DirtyPages(b) - {p}
  {
  }

  lemma {:induction false} SendAll(r: Run, first: State, s: State) returns (g: Run, t: State)
    requires Reaches(r, first, s) && Resting(s)
    ensures Reaches(g, first, t) && Resting(t) && BRuns.DirtyPages(t.buf) == {}
    decreases BRuns.DirtyPages(s.buf)
  {
    hide Reaches, Cleaned;
    if BRuns.DirtyPages(s.buf) == {} { return r, s; }
    var p :| p in BRuns.DirtyPages(s.buf);
    g, t := SendPage(r, first, s, p);
    CleanedIs(s.buf, p, t.buf);
    g, t := SendAll(g, first, t);
  }

  // ----- Giving up -----

  /** Both layers give up what they are transferring. */
  lemma {:induction false} DropAll(r: Run, first: State, s: State) returns (g: Run, t: State)
    requires Reaches(r, first, s) && s.user.Nobody? && s.fc.client.Idle?
    ensures Reaches(g, first, t) && Resting(t)
    decreases s.buf.loads.Keys, s.buf.flights.Keys, s.fc.fetches.Keys, s.fc.flights.Keys
  {
    hide Reaches, FC.Enabled, FC.Next, FC.Disciplined, B.Enabled, B.Next;
    ReachesInv(r, first, s);
    if s.buf.loads.Keys != {} {
      var id :| id in s.buf.loads.Keys;
      Drops(s.buf, id);
      g, t := TopStep(r, first, s, B.LoadDrop(id), s.buf.(loads := s.buf.loads - {id}));
    } else if s.buf.flights.Keys != {} {
      var id :| id in s.buf.flights.Keys;
      Drops(s.buf, id);
      g, t := TopStep(r, first, s, B.Fail(id), s.buf.(flights := s.buf.flights - {id}));
    } else if s.fc.fetches.Keys != {} {
      var id :| id in s.fc.fetches.Keys;
      FL.Drops(s.fc, id);
      g, t := QuietBelow(r, first, s, FC.FetchDrop(id), s.fc.(fetches := s.fc.fetches - {id}));
    } else if s.fc.flights.Keys != {} {
      var id :| id in s.fc.flights.Keys;
      FL.Drops(s.fc, id);
      g, t := QuietBelow(r, first, s, FC.Fail(id), s.fc.(flights := s.fc.flights - {id}));
    } else {
      return r, s;
    }
    g, t := DropAll(g, first, t);
  }

  lemma Drops(b: B.State, id: nat)
    requires b.Shape()
    ensures id in b.loads ==>
      B.Enabled(b, B.LoadDrop(id)) && B.NoOverlap(b, B.LoadDrop(id)) && B.Next(b, B.LoadDrop(id)) == b.(loads := b.loads - {id})
    ensures id in b.flights ==>
      B.Enabled(b, B.Fail(id)) && B.NoOverlap(b, B.Fail(id)) && B.Next(b, B.Fail(id)) == b.(flights := b.flights - {id})
  {
  }

  lemma Settles(r: Run, first: State, s: State) returns (g: Run, t: State)
    requires Reaches(r, first, s) && s.fc.Calm()
    ensures Reaches(g, first, t) && Resting(t)
  {
    hide Reaches, FC.Enabled, FC.Next, FC.Disciplined;
    ReachesInv(r, first, s);
    g, t := r, s;
    if !s.user.Nobody? {
      FL.GivesUp(s.fc);
      g, t := BelowStep(r, first, s, if s.fc.client.Writer? then FC.AbortWrite else FC.AbortRead, s.fc.(client := FC.Idle));
    }
    g, t := DropAll(g, first, t);
  }

  // ----- The disk cache's flush -----

  lemma FlushOne(r: Run, first: State, s: State, p: nat) returns (g: Run, t: State)
    requires Reaches(r, first, s) && Resting(s) && p in s.fc.dirty
    ensures Reaches(g, first, t) && Resting(t) && t.buf == s.buf && t.fc == s.fc.(blob := t.fc.blob, dirty := s.fc.dirty - {p})
  {
    hide Reaches, FC.Enabled, FC.Next, FC.Disciplined, FL.Flying, FL.Uploaded;
    ReachesInv(r, first, s);
    var fc := s.fc;
    var keys := PageKeys(fc.pg, p);
    FL.Snapshots(fc, p);
    FL.Lands(fc, p);
    FL.Finishes(fc, p);
    g, t := QuietBelow(r, first, s, FC.Snapshot(0, p), FL.Flying(fc, p, {}));
    g, t := QuietBelow(g, first, t, FC.Land(0, keys), FL.Flying(fc, p, keys).(blob := FL.Uploaded(fc, p)));
    g, t := QuietBelow(g, first, t, FC.Finish(0), fc.(blob := FL.Uploaded(fc, p), dirty := fc.dirty - {p}));
  }

  lemma {:induction false} FlushAll(r: Run, first: State, s: State) returns (g: Run, t: State)
    requires Reaches(r, first, s) && Resting(s)
    ensures Reaches(g, first, t) && Resting(t) && t.buf == s.buf && t.fc.dirty == {}
    decreases s.fc.dirty
  {
    hide Reaches;
    if s.fc.dirty == {} { return r, s; }
    var p :| p in s.fc.dirty;
    g, t := FlushOne(r, first, s, p);
    g, t := FlushAll(g, first, t);
  }

  /**
    From every state of the stack that keeps the invariant, with the disk cache between two chunks and anything going on in
    either layer, a disciplined run without client writes ends with nothing dirty and the blob equal to the device.
  */
  lemma FlushCompletes(first: State) returns (g: Run)
    requires Inv(first) && first.fc.Calm()
    ensures g.Valid() && g.First() == first && g.Serial() && g.NoApply() && first.buf.Shape()
    ensures BRuns.DirtyPages(g.End().buf) == {} && g.End().fc.dirty == {} && g.End().fc.blob == Flat(first)
  {
    hide Enabled, Next, Disciplined, Inv, BRuns.DirtyPages;
    var s;
    g, s := Settles(Start(first), first, first);
    g, s := SendAll(g, first, s);
    g, s := FlushAll(g, first, s);
    ReachesInv(g, first, s);
    CleanIsBlob(s);
  }

  lemma CleanIsBlob(s: State)
    requires Inv(s) && Resting(s) && BRuns.DirtyPages(s.buf) == {} && s.fc.dirty == {}
    ensures s.buf.Shape() && s.fc.blob == Flat(s)
  {
    var b, fc := s.buf, s.fc;
    forall k: nat | k < |fc.blob| ensures fc.blob[k] == Flat(s)[k] {
      assert b.pg[k] in b.pages ==> b.pg[k] !in BRuns.DirtyPages(b);
      assert Flat(s)[k] == B.At(b, k) == b.inner[k] == FC.At(fc, k);
      if fc.blob[k] != FC.At(fc, k) { FCRuns.StaleIsDirty(fc, k); }
    }
  }
}
