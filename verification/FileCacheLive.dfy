/**
  Every operation of the local-disk cache can be completed: from each state a disciplined run reaches, a disciplined
  continuation finishes a read, a write or a flush, and what it leaves is the flat device.
*/
module FileCacheLive {
  import opened Store
  import opened FileCache
  import opened FileCacheRefinement
  import opened FileCacheRuns

  /** A run from an opened cache, under the hypotheses, that has come to `s`. */
  ghost predicate Reaches(r: Run, s: State) {
    r.Valid() && Opened(r.First()) && r.All(Disciplined) && r.End() == s
  }

  /** `g` goes on from `r`. */
  ghost predicate GoesOn(g: Run, r: Run) { g == r || (g.Then? && GoesOn(g.prev, r)) }

  /** One more step. */
  lemma Step(r: Run, s: State, l: Label, t: State) returns (g: Run)
    requires Reaches(r, s) && Enabled(s, l) && Disciplined(s, l) && t == Next(s, l)
    ensures Reaches(g, t) && g == Then(r, l) && GoesOn(g, r)
  {
    g := Then(r, l);
    GoesNowhere(r);
  }

  lemma {:induction false} GoesFurther(g: Run, m: Run, r: Run)
    requires GoesOn(g, m) && GoesOn(m, r)
    ensures GoesOn(g, r)
  {
    if g != m { GoesFurther(g.prev, m, r); }
  }

  lemma ReachesInv(r: Run, s: State)
    requires Reaches(r, s)
    ensures Inv(s) && s.Shape()
  {
    hide Inv, Enabled, Next, Disciplined;
    RunRefinesFlat(r);
    InvShape(s);
  }

  lemma InvShape(s: State)
    requires Inv(s)
    ensures s.Shape() && s.dirty <= s.present
  {
  }

  // ----- Reads -----

  lemma ReadStep(s: State, p: nat, keys: set<nat>)
    requires s.Shape() && s.client.Reader? && keys <= s.client.keys && keys <= PageKeys(s.pg, p)
    ensures Enabled(s, ReadPart(p, keys)) && Disciplined(s, ReadPart(p, keys))
    ensures var got := s.client.got + Served(s, p, keys);
      Next(s, ReadPart(p, keys)) == s.(client := Reader(s.client.keys, got)) && got.Keys == s.client.got.Keys + keys
  {
  }

  lemma {:induction false} ReadOn(r: Run, s: State, left: set<nat>) returns (g: Run, t: State)
    requires Reaches(r, s) && s.client.Reader? && left == s.client.keys - s.client.got.Keys
    requires s.client.got.Keys <= s.client.keys && forall k | k in s.client.keys :: k < |s.blob|
    ensures Reaches(g, t) && GoesOn(g, r) && t.client.Reader? && t == s.(client := Reader(s.client.keys, t.client.got))
    ensures t.client.got.Keys == s.client.keys
    decreases left
  {
    hide Reaches, Enabled, Next, Disciplined, Served, GoesOn;
    ReachesInv(r, s);
    g, t := r, s;
    GoesNowhere(r);
    if left == {} {
      forall k | k in s.client.keys ensures k in s.client.got { assert k !in left; }
    } else {
      var k :| k in left;
      ReadStep(s, s.pg[k], {k});
      var u := Next(s, ReadPart(s.pg[k], {k}));
      var m := Step(r, s, ReadPart(s.pg[k], {k}), u);
      g, t := ReadOn(m, u, left - {k});
      GoesFurther(g, m, r);
    }
  }

  /**
    From every state between two chunks, with anything going on, a read of any bytes of the device can be completed, and
    returns what the device shows.
  */
  lemma ReadCompletes(r: Run, s: State, keys: set<nat>) returns (g: Run)
    requires Reaches(r, s) && s.Calm() && forall k | k in keys :: k < |s.blob|
    ensures g.Valid() && GoesOn(g, r) && Enabled(g.End(), EndRead)
    ensures s.Shape() && g.End().client.got == Cut(View(s), keys)
  {
    hide Enabled, Next, Disciplined, GoesOn;
    var r1, s1 := Settles(r, s);
    var u := s1.(client := Reader(keys, map[]));
    ReadBegins(s1, keys);
    var m := Step(r1, s1, BeginRead(keys), u);
    var t;
    g, t := ReadOn(m, u, keys);
    GoesFurther(m, r1, r);
    GoesFurther(g, m, r);
    ReadEnds(t);
    ReadReturnsFlat(g);
    RunRefinesFlat(g);
    SameView(s1, t);
  }

  lemma ReadBegins(s: State, keys: set<nat>)
    requires s.Shape() && s.client.Idle? && forall k | k in keys :: k < |s.blob|
    ensures Enabled(s, BeginRead(keys)) && Disciplined(s, BeginRead(keys))
    ensures Next(s, BeginRead(keys)) == s.(client := Reader(keys, map[]))
  {
  }

  lemma ReadEnds(s: State)
    requires s.Shape() && s.client.Reader? && s.client.got.Keys == s.client.keys
    ensures Enabled(s, EndRead)
  {
  }

  lemma SameView(s: State, t: State)
    requires s.Shape() && t == s.(client := t.client)
    ensures t.Shape() && View(t) == View(s)
  {
    assert forall k | 0 <= k < |s.blob| :: At(s, k) == At(t, k);
  }

  // ----- Giving up -----

  /** Nothing is going on. */
  predicate Resting(s: State) { s.client.Idle? && s.flights == map[] && s.fetches == map[] }

  lemma Drops(s: State, id: nat)
    requires s.Shape()
    ensures id in s.fetches ==>
      && Enabled(s, FetchDrop(id)) && Disciplined(s, FetchDrop(id))
      && Next(s, FetchDrop(id)) == s.(fetches := s.fetches - {id})
    ensures id in s.flights ==>
      && Enabled(s, Fail(id)) && Disciplined(s, Fail(id))
      && Next(s, Fail(id)) == s.(flights := s.flights - {id})
  {
  }

  lemma GivesUp(s: State)
    requires s.Shape() && s.Calm() && !s.client.Idle?
    ensures var l := if s.client.Writer? then AbortWrite else AbortRead;
      Enabled(s, l) && Disciplined(s, l) && Next(s, l) == s.(client := Idle)
  {
  }

  lemma {:induction false} DropAll(r: Run, s: State) returns (g: Run, t: State)
    requires Reaches(r, s) && s.client.Idle?
    ensures Reaches(g, t) && GoesOn(g, r) && t == s.(flights := map[], fetches := map[])
    decreases s.fetches.Keys, s.flights.Keys
  {
    hide Reaches, Enabled, Next, Disciplined, GoesOn;
    ReachesInv(r, s);
    GoesNowhere(r);
    var m, u;
    if s.fetches.Keys != {} {
      var id :| id in s.fetches.Keys;
      Drops(s, id);
      u := s.(fetches := s.fetches - {id});
      m := Step(r, s, FetchDrop(id), u);
    } else if s.flights.Keys != {} {
      var id :| id in s.flights.Keys;
      Drops(s, id);
      u := s.(flights := s.flights - {id});
      m := Step(r, s, Fail(id), u);
    } else {
      return r, s;
    }
    g, t := DropAll(m, u);
    GoesFurther(g, m, r);
  }

  /**
    From every state between two chunks, whatever is going on can be given up: the transfers are gone, and the device
    shown is the same.
  */
  lemma Settles(r: Run, s: State) returns (g: Run, t: State)
    requires Reaches(r, s) && s.Calm()
    ensures Reaches(g, t) && GoesOn(g, r) && Resting(t) && t == s.(client := Idle, flights := map[], fetches := map[])
    ensures s.Shape() && t.Shape() && View(t) == View(s)
  {
    hide Reaches, Enabled, Next, Disciplined, GoesOn;
    ReachesInv(r, s);
    GoesNowhere(r);
    var m, u := r, s;
    if !s.client.Idle? {
      GivesUp(s);
      u := s.(client := Idle);
      m := Step(r, s, if s.client.Writer? then AbortWrite else AbortRead, u);
    }
    g, t := DropAll(m, u);
    GoesFurther(g, m, r);
    ShownAlike(s, t);
  }

  lemma ShownAlike(s: State, t: State)
    requires s.Shape() && t == s.(client := t.client, flights := t.flights, fetches := t.fetches)
    ensures t.Shape() && View(t) == View(s)
  {
    assert forall k | 0 <= k < |s.blob| :: At(s, k) == At(t, k);
  }

  // ----- Flushes -----

  /** The whole of page `p` in flight, before and after it has landed. */
  function Flying(s: State, p: nat, landed: set<nat>): State {
    s.(flights := map[0 := Flight(p, s.Gen(p), Cut(s.data, PageKeys(s.pg, p)), landed)])
  }

  function Uploaded(s: State, p: nat): seq<Byte> { Overlay(s.blob, Cut(s.data, PageKeys(s.pg, p))) }

  lemma Snapshots(s: State, p: nat)
    requires s.Shape() && Resting(s) && p in s.dirty
    ensures Enabled(s, Snapshot(0, p)) && Disciplined(s, Snapshot(0, p)) && Next(s, Snapshot(0, p)) == Flying(s, p, {})
  {
    assert s.flights[0 := Flying(s, p, {}).flights[0]] == Flying(s, p, {}).flights;
  }

  lemma Lands(s: State, p: nat)
    requires s.Shape()
    ensures var keys := PageKeys(s.pg, p); var f := Flying(s, p, {});
      && Enabled(f, Land(0, keys)) && Disciplined(f, Land(0, keys))
      && Next(f, Land(0, keys)) == Flying(s, p, keys).(blob := Uploaded(s, p))
  {
    var keys := PageKeys(s.pg, p);
    var img := Cut(s.data, keys);
    assert Restrict(img, keys) == img && {} + keys == keys;
    assert Flying(s, p, {}).flights[0 := Flying(s, p, keys).flights[0]] == Flying(s, p, keys).flights;
  }

  lemma Finishes(s: State, p: nat)
    requires s.Shape() && Resting(s)
    ensures var f := Flying(s, p, PageKeys(s.pg, p)).(blob := Uploaded(s, p));
      && Enabled(f, Finish(0)) && Disciplined(f, Finish(0))
      && Next(f, Finish(0)) == s.(blob := Uploaded(s, p), dirty := s.dirty - {p})
  {
    var keys := PageKeys(s.pg, p);
    assert Cut(s.data, keys).Keys == keys;
    assert Flying(s, p, keys).flights - {0} == map[];
  }

  lemma FlushOne(r: Run, s: State, p: nat) returns (g: Run, t: State)
    requires Reaches(r, s) && Resting(s) && p in s.dirty
    ensures Reaches(g, t) && GoesOn(g, r) && Resting(t) && t == s.(blob := Uploaded(s, p), dirty := s.dirty - {p})
    ensures s.Shape() && t.Shape() && View(t) == View(s)
  {
    hide Reaches, Enabled, Next, Disciplined, Flying, Uploaded, GoesOn;
    ReachesInv(r, s);
    Snapshots(s, p);
    Lands(s, p);
    Finishes(s, p);
    var keys := PageKeys(s.pg, p);
    var m := Step(r, s, Snapshot(0, p), Flying(s, p, {}));
    var n := Step(m, Flying(s, p, {}), Land(0, keys), Flying(s, p, keys).(blob := Uploaded(s, p)));
    t := s.(blob := Uploaded(s, p), dirty := s.dirty - {p});
    g := Step(n, Flying(s, p, keys).(blob := Uploaded(s, p)), Finish(0), t);
    GoesFurther(n, m, r);
    GoesFurther(g, n, r);
    UploadKeepsView(s, p);
  }

  lemma UploadKeepsView(s: State, p: nat)
    requires s.Shape() && p in s.present
    ensures var t := s.(blob := Uploaded(s, p), dirty := s.dirty - {p}); t.Shape() && View(t) == View(s)
  {
    var t := s.(blob := Uploaded(s, p), dirty := s.dirty - {p});
    assert forall k | 0 <= k < |s.blob| :: At(t, k) == At(s, k);
  }

  lemma {:induction false} FlushOn(r: Run, s: State) returns (g: Run, t: State)
    requires Reaches(r, s) && Resting(s)
    ensures Reaches(g, t) && GoesOn(g, r) && Resting(t) && t == s.(blob := t.blob, dirty := {})
    ensures s.Shape() && t.Shape() && View(t) == View(s)
    decreases s.dirty
  {
    hide Reaches, GoesOn, Uploaded, View, State.Shape;
    if s.dirty == {} {
      ReachesInv(r, s);
      GoesNowhere(r);
      return r, s;
    }
    var p :| p in s.dirty;
    var m, u := FlushOne(r, s, p);
    g, t := FlushOn(m, u);
    GoesFurther(g, m, r);
  }

  lemma GoesNowhere(r: Run)
    ensures GoesOn(r, r)
  {
  }

  /**
    From every state between two chunks, with anything going on, a flush can be completed: nothing is dirty, and the blob
    is the device shown.
  */
  lemma FlushCompletes(r: Run, s: State) returns (g: Run)
    requires Reaches(r, s) && s.Calm()
    ensures g.Valid() && GoesOn(g, r) && s.Shape() && g.End().Shape()
    ensures g.End().dirty == {} && g.End().present == s.present && g.End().blob == View(g.End()) == View(s)
  {
    hide Enabled, Next, Disciplined, Inv, GoesOn;
    var m, u := Settles(r, s);
    var t;
    g, t := FlushOn(m, u);
    GoesFurther(g, m, r);
    ReachesInv(g, t);
    forall k: nat | k < |t.blob| ensures t.blob[k] == At(t, k) {
      if t.blob[k] != At(t, k) { StaleIsDirty(t, k); }
    }
  }

  // ----- Writes -----

  /** A write of `img` that has finished the chunks of `done`. */
  function Writing(s: State, img: Image, done: set<nat>, part: set<nat>, before: seq<Byte>): State {
    s.(client := Writer(img, done, part, before))
  }

  /** The part of a write that is on page `p`. */
  function Chunk(pg: Paging, img: Image, p: nat): set<nat> { img.Keys * PageKeys(pg, p) }

  /** Whole chunks are done. */
  ghost predicate Whole(pg: Paging, img: Image, done: set<nat>) {
    done <= img.Keys && forall k, j | k in done && j in img && k < |pg| && j < |pg| && pg[k] == pg[j] :: j in done
  }

  lemma Begins(s: State, img: Image)
    requires s.Shape() && s.client.Idle? && forall k | k in img :: k < |s.blob|
    ensures Enabled(s, BeginWrite(img)) && Disciplined(s, BeginWrite(img))
    ensures Next(s, BeginWrite(img)) == Writing(s, img, {}, {}, View(s))
  {
  }

  lemma Puts(s: State, img: Image, done: set<nat>, before: seq<Byte>, p: nat)
    requires s.Shape() && (p in s.present || PageKeys(s.pg, p) <= img.Keys) && Chunk(s.pg, img, p) !! done
    ensures var w, c := Writing(s, img, done, {}, before), Chunk(s.pg, img, p);
      && Enabled(w, PutData(p, c)) && Disciplined(w, PutData(p, c))
      && Next(w, PutData(p, c)) == Writing(s, img, done, c, before).(data := Overlay(s.data, Restrict(img, c)))
  {
    var c := Chunk(s.pg, img, p);
    assert {} + c == c;
  }

  lemma Marks(s: State, img: Image, done: set<nat>, before: seq<Byte>, p: nat)
    requires s.Shape() && Chunk(s.pg, img, p) != {}
    ensures var c := Chunk(s.pg, img, p); var w := Writing(s, img, done, c, before);
      && Enabled(w, MarkDirty(p)) && Disciplined(w, MarkDirty(p))
      && Next(w, MarkDirty(p)) ==
         Writing(s, img, done + c, {}, before).(present := s.present + {p}, dirty := s.dirty + {p}, gens := s.gens[p := s.Gen(p) + 1])
  {
  }

  /** Page `p` being fetched: all of it has arrived, and `put` of it is in the data file. */
  function Fetching(s: State, p: nat, img: Image, put: set<nat>): State { s.(fetches := map[0 := Fetch(p, img, put)]) }

  lemma FetchBegins(s: State, p: nat)
    requires s.Shape() && s.Calm() && s.fetches == map[] && p in s.pg && p !in s.present
    ensures Enabled(s, FetchStart(0, p)) && Disciplined(s, FetchStart(0, p))
    ensures Next(s, FetchStart(0, p)) == Fetching(s, p, map[], {})
  {
    assert s.fetches[0 := Fetch(p, map[], {})] == map[0 := Fetch(p, map[], {})];
  }

  lemma FetchArrives(s: State, p: nat)
    requires s.Shape()
    ensures var keys := PageKeys(s.pg, p); var f := Fetching(s, p, map[], {});
      && Enabled(f, FetchPart(0, keys)) && Disciplined(f, FetchPart(0, keys))
      && Next(f, FetchPart(0, keys)) == Fetching(s, p, Cut(s.blob, keys), {})
  {
    var keys := PageKeys(s.pg, p);
    var img := Cut(s.blob, keys);
    assert map[] + img == img;
    assert Fetching(s, p, map[], {}).fetches[0 := Fetch(p, img, {})] == map[0 := Fetch(p, img, {})];
  }

  lemma FetchPuts(s: State, p: nat)
    requires s.Shape() && s.Calm() && p !in s.present
    ensures var keys := PageKeys(s.pg, p); var img := Cut(s.blob, keys); var f := Fetching(s, p, img, {});
      && Enabled(f, FetchPut(0, keys)) && Disciplined(f, FetchPut(0, keys))
      && Next(f, FetchPut(0, keys)) == Fetching(s, p, img, keys).(data := Overlay(s.data, img))
  {
    var keys := PageKeys(s.pg, p);
    var img := Cut(s.blob, keys);
    assert img.Keys == keys && Restrict(img, keys) == img && {} + keys == keys;
    assert Fetching(s, p, img, {}).fetches[0 := Fetch(p, img, keys)] == map[0 := Fetch(p, img, keys)];
  }

  lemma FetchMarks(s: State, p: nat, img: Image)
    requires s.Shape() && s.Calm() && p !in s.present && s.fetches == map[]
    ensures var f := Fetching(s, p, img, PageKeys(s.pg, p));
      && Enabled(f, FetchMark(0)) && Disciplined(f, FetchMark(0))
      && Next(f, FetchMark(0)) == s.(present := s.present + {p})
  {
    assert Fetching(s, p, img, PageKeys(s.pg, p)).fetches - {0} == map[];
  }

  /** A page that is not present can be fetched. */
  lemma FetchOne(r: Run, s: State, p: nat) returns (g: Run, t: State)
    requires Reaches(r, s) && s.Calm() && s.fetches == map[] && p in s.pg && p !in s.present
    ensures Reaches(g, t) && GoesOn(g, r) && t == s.(data := t.data, present := s.present + {p})
  {
    hide Reaches, Enabled, Next, Disciplined, Fetching, GoesOn;
    ReachesInv(r, s);
    var keys := PageKeys(s.pg, p);
    var img := Cut(s.blob, keys);
    var u := s.(data := Overlay(s.data, img));
    FetchBegins(s, p);
    FetchArrives(s, p);
    FetchPuts(s, p);
    FetchMarks(u, p, img);
    FetchingData(s, p, img, keys, u);
    t := u.(present := s.present + {p});
    var a := Step(r, s, FetchStart(0, p), Fetching(s, p, map[], {}));
    var b := Step(a, Fetching(s, p, map[], {}), FetchPart(0, keys), Fetching(s, p, img, {}));
    var c := Step(b, Fetching(s, p, img, {}), FetchPut(0, keys), Fetching(u, p, img, keys));
    g := Step(c, Fetching(u, p, img, keys), FetchMark(0), t);
    GoesFurther(b, a, r);
    GoesFurther(c, b, r);
    GoesFurther(g, c, r);
  }

  lemma FetchingData(s: State, p: nat, img: Image, keys: set<nat>, u: State)
    requires u == s.(data := Overlay(s.data, img))
    ensures Fetching(s, p, img, keys).(data := u.data) == Fetching(u, p, img, keys)
  {
  }

  /** A write in progress between two chunks, with nothing else going on. */
  ghost predicate Between(s: State, img: Image, done: set<nat>, before: seq<Byte>) {
    && s.client == Writer(img, done, {}, before) && s.flights == map[] && s.fetches == map[]
    && Whole(s.pg, img, done) && forall k | k in img :: k < |s.pg|
  }

  /** The chunk of page `p`, once its page is present or it is all of it. */
  lemma PutOne(r: Run, s: State, img: Image, done: set<nat>, before: seq<Byte>, p: nat) returns (g: Run, t: State)
    requires Reaches(r, s) && Between(s, img, done, before) && Chunk(s.pg, img, p) !! done && Chunk(s.pg, img, p) != {}
    requires p in s.present || PageKeys(s.pg, p) <= img.Keys
    ensures Reaches(g, t) && GoesOn(g, r) && Between(t, img, done + Chunk(s.pg, img, p), before) && t.pg == s.pg
  {
    hide Reaches, Enabled, Next, Disciplined, Chunk, GoesOn;
    ReachesInv(r, s);
    var c := Chunk(s.pg, img, p);
    Puts(s, img, done, before, p);
    var u := s.(data := Overlay(s.data, Restrict(img, c)));
    Marks(u, img, done, before, p);
    assert Writing(s, img, done, {}, before) == s;
    var a := Step(r, s, PutData(p, c), Writing(u, img, done, c, before));
    t := Writing(u, img, done + c, {}, before).(present := s.present + {p}, dirty := s.dirty + {p}, gens := s.gens[p := s.Gen(p) + 1]);
    g := Step(a, Writing(u, img, done, c, before), MarkDirty(p), t);
    GoesFurther(g, a, r);
    WholeMore(s.pg, img, done, p);
  }

  lemma WholeMore(pg: Paging, img: Image, done: set<nat>, p: nat)
    requires Whole(pg, img, done)
    ensures Whole(pg, img, done + Chunk(pg, img, p))
  {
  }

  lemma {:induction false} WriteOn(r: Run, s: State, img: Image, done: set<nat>, before: seq<Byte>) returns (g: Run, t: State)
    requires Reaches(r, s) && Between(s, img, done, before)
    ensures Reaches(g, t) && GoesOn(g, r) && Between(t, img, img.Keys, before)
    decreases img.Keys - done
  {
    hide Reaches, GoesOn;
    if img.Keys <= done {
      GoesNowhere(r);
      assert done == img.Keys;
      return r, s;
    }
    var k :| k in img && k !in done;
    var p := s.pg[k];
    assert k in Chunk(s.pg, img, p);
    assert Chunk(s.pg, img, p) !! done;
    var m, u := r, s;
    GoesNowhere(r);
    if p !in s.present { m, u := FetchOne(r, s, p); }
    var n, v := PutOne(m, u, img, done, before, p);
    g, t := WriteOn(n, v, img, done + Chunk(s.pg, img, p), before);
    GoesFurther(n, m, r);
    GoesFurther(g, n, r);
  }

  /**
    From every state between two chunks, with anything going on, a write of any bytes of the device can be completed, and
    the device then shows exactly it.
  */
  lemma WriteCompletes(r: Run, s: State, img: Image) returns (g: Run)
    requires Reaches(r, s) && s.Calm() && forall k | k in img :: k < |s.blob|
    ensures g.Valid() && GoesOn(g, r) && Resting(g.End()) && s.Shape() && g.End().Shape()
    ensures View(g.End()) == Overlay(View(s), img)
  {
    hide Enabled, Next, Disciplined, Inv, GoesOn;
    var r1, s1 := Settles(r, s);
    ReachesInv(r1, s1);
    Begins(s1, img);
    var u := Writing(s1, img, {}, {}, View(s1));
    var m := Step(r1, s1, BeginWrite(img), u);
    var n, t := WriteOn(m, u, img, {}, View(s1));
    GoesFurther(m, r1, r);
    GoesFurther(n, m, r);
    ReachesInv(n, t);
    Ends(t, img, View(s1));
    g := Step(n, t, EndWrite, t.(client := Idle));
    GoesFurther(g, n, r);
    RunRefinesFlat(g);
    RunRefinesFlat(n);
  }

  lemma Ends(s: State, img: Image, before: seq<Byte>)
    requires Inv(s) && s.Shape() && s.client == Writer(img, img.Keys, {}, before)
    ensures Enabled(s, EndWrite) && Disciplined(s, EndWrite) && Next(s, EndWrite) == s.(client := Idle)
    ensures Written(s, EndWrite) == img && Flat(s) == before
  {
  }
}
