/**
  The cache across sessions: pages left on disk by one session are reused by the next only when the blob's
  validity token (its ETag) proves that nobody changed the blob in between.

  A token is a counter that moves on every blob mutation.  `recorded` is the token in the `.etag` file.
*/
module Sessions {
  import opened Store
  import opened FileCache
  import opened FileCacheRefinement
  import opened FileCacheRuns
  import CacheDisk
  import opened CrashRecovery

  datatype Recorded = NoToken | Token(t: nat)

  /** `since` is the token that was live when the session opened. */
  datatype World = World(open: bool, fc: State, token: nat, recorded: Recorded, since: nat)

  datatype Event =
    /** One step of the open cache; every upload that lands moves the token. */
    | Work(l: Label)
    /** A flush ends and records the token it asked for some time in this session, which need not be the newest one. */
    | Record(t: nat)
    /** The session ends, cleanly or by a crash, with `present` and `dirty` in the metadata file. */
    | Close(present: set<nat>, dirty: set<nat>)
    /** Somebody else changes the blob between sessions. */
    | Outside(img: Image)
    /** `open`; `known` says whether the blob's token could be read. */
    | Open(known: bool)

  /** `drop_clean_pages`: only dirty pages stay present. */
  function DropClean(s: State): State { s.(present := s.present * s.dirty) }

  ghost predicate CanDo(w: World, e: Event) {
    match e
    case Work(l) => w.open && Enabled(w.fc, l)
    case Record(t) => w.open && w.since <= t <= w.token
    case Close(p, d) => w.open && w.fc.Shape() && !w.fc.client.Writer? && w.fc.dirty <= d <= p <= w.fc.present
    case Outside(img) => !w.open
    case Open(known) => !w.open
  }

  ghost function Do(w: World, e: Event): World
    requires CanDo(w, e)
  {
    match e
    case Work(l) => w.(fc := Next(w.fc, l), token := if l.Land? then w.token + 1 else w.token)
    case Record(t) => w.(recorded := Token(t))
    case Close(p, d) => w.(open := false, fc := Reopen(w.fc, w.fc.data, p, d))
    case Outside(img) => w.(fc := w.fc.(blob := Overlay(w.fc.blob, img)), token := w.token + 1)
    case Open(known) =>
      if !known then w.(open := true, since := w.token)
      else World(true, if w.recorded == Token(w.token) then w.fc else DropClean(w.fc), w.token, Token(w.token), w.token)
  }

  /** The hypotheses: those of the cache, and a backend that reports its token. */
  ghost predicate Trusted(w: World, e: Event) {
    && (e.Work? ==> Disciplined(w.fc, e.l))
    && (e.Open? ==> e.known)
  }

  ghost predicate SessionInv(w: World) {
    && (w.recorded.Token? ==> w.recorded.t <= w.token)
    && (w.open ==> Inv(w.fc))
    && (!w.open ==>
          && w.fc.Shape()
          && w.fc == Reopen(w.fc, w.fc.data, w.fc.present, w.fc.dirty)
          && w.fc.dirty <= w.fc.present
          && (w.recorded == Token(w.token) ==> CleanIsBlob(w.fc)))
  }

  lemma EventKeepsSessionInv(w: World, e: Event)
    requires SessionInv(w) && CanDo(w, e) && Trusted(w, e)
    ensures SessionInv(Do(w, e))
  {
    if e.Work? {
      StepRefines(w.fc, e.l);
    } else if e.Close? {
      assert CleanIsBlob(Do(w, e).fc);
    } else if e.Open? {
      OpenedIsInv(Do(w, e).fc);
    }
  }

  lemma OpenedIsInv(s: State)
    requires Opened(s)
    ensures Inv(s)
  {
  }

  datatype History = Begin(w: World) | Happened(prev: History, e: Event) {
    ghost predicate Valid()
      decreases this, 0
    {
      match this
      case Begin(w) => SessionInv(w)
      case Happened(h, e) => h.Valid() && CanDo(h.Now(), e)
    }

    ghost function Now(): World
      requires Valid()
      decreases this, 1
    {
      match this
      case Begin(w) => w
      case Happened(h, e) => Do(h.Now(), e)
    }

    /** The hypotheses hold along the history. */
    ghost predicate AllTrusted()
      requires Valid()
    {
      this.Happened? ==> prev.AllTrusted() && Trusted(prev.Now(), e)
    }
  }

  lemma {:induction false} HistoryKeepsSessionInv(h: History)
    requires h.Valid() && h.AllTrusted()
    ensures SessionInv(h.Now())
  {
    if h.Happened? {
      HistoryKeepsSessionInv(h.prev);
      EventKeepsSessionInv(h.prev.Now(), h.e);
    }
  }

  /**
    After any number of sessions, opening keeps every dirty page with its bytes, and shows the live blob
    everywhere else: every clean page that is reused equals the blob.
  */
  lemma ReuseIsSound(h: History, k: nat)
    requires h.Valid() && h.AllTrusted() && !h.Now().open && k < |h.Now().fc.blob|
    ensures var w := h.Now(); var o := Do(w, Open(true));
      && Opened(o.fc)
      && o.fc.dirty == w.fc.dirty && o.fc.data == w.fc.data && o.fc.blob == w.fc.blob
      && View(o.fc)[k] == (if o.fc.pg[k] in o.fc.dirty then w.fc.data[k] else w.fc.blob[k])
  {
    HistoryKeepsSessionInv(h);
    var o := Do(h.Now(), Open(true));
    assert Opened(o.fc);
    assert View(o.fc)[k] == At(o.fc, k);
  }

  /** With no outside writer since the session closed, opening gives back the device as it was. */
  lemma ReopenKeepsDevice(h: History, p: set<nat>, d: set<nat>)
    requires h.Valid() && h.AllTrusted() && h.Now().open && CanDo(h.Now(), Close(p, d))
    ensures var closed := Do(h.Now(), Close(p, d));
      Opened(Do(closed, Open(true)).fc) && View(Do(closed, Open(true)).fc) == Flat(h.Now().fc)
  {
    HistoryKeepsSessionInv(h);
    var w := h.Now();
    EventKeepsSessionInv(w, Close(p, d));
    var o := Do(Do(w, Close(p, d)), Open(true));
    assert CleanIsBlob(Do(w, Close(p, d)).fc);
    forall k: nat | k < |w.fc.blob| ensures View(o.fc)[k] == Flat(w.fc)[k] {
      assert At(o.fc, k) == At(w.fc, k);
    }
  }

  // ----- What an open keeps -----

  /** Nothing has moved the token since the recorded one was the live one. */
  ghost predicate Current(h: History)
    requires h.Valid()
  {
    match h
    case Begin(w) => w.recorded == Token(w.token)
    case Happened(p, Work(l)) => !l.Land? && Current(p)
    case Happened(p, Record(t)) => t == p.Now().token
    case Happened(p, Close(_, _)) => Current(p)
    case Happened(p, Outside(_)) => false
    case Happened(p, Open(known)) => known || Current(p)
  }

  lemma {:induction false} CurrentExactly(h: History)
    requires h.Valid()
    ensures Current(h) <==> h.Now().recorded == Token(h.Now().token)
    ensures h.Now().recorded.Token? ==> h.Now().recorded.t <= h.Now().token
  {
    hide SessionInv;
    if h.Happened? {
      CurrentExactly(h.prev);
    } else {
      BeginsInOrder(h.w);
    }
  }

  lemma BeginsInOrder(w: World)
    requires SessionInv(w)
    ensures w.recorded.Token? ==> w.recorded.t <= w.token
  {
  }

  /**
    Over every history, an open with a known token keeps the metadata file's pages exactly if nothing has moved the token
    since the recorded one was live, or there is no clean page to drop; otherwise it keeps exactly the dirty ones.
  */
  lemma OpenKeepsExactly(h: History)
    requires h.Valid() && !h.Now().open
    ensures var w, o := h.Now(), Do(h.Now(), Open(true));
      && (o.fc.present == w.fc.present <==> Current(h) || w.fc.present <= w.fc.dirty)
      && o.fc.present == (if Current(h) then w.fc.present else w.fc.present * w.fc.dirty)
      && o.fc == w.fc.(present := o.fc.present)
  {
    CurrentExactly(h);
    var w := h.Now();
    assert w.fc.present * w.fc.dirty == w.fc.present <==> w.fc.present <= w.fc.dirty;
  }

  /** Between `p` and `h` no upload lands and nobody else changes the blob. */
  ghost predicate Quiet(h: History, p: History) {
    h == p || (h.Happened? && !h.e.Outside? && (h.e.Work? ==> !h.e.l.Land?) && Quiet(h.prev, p))
  }

  /** In a quiet time after an open with a known token, the recorded token stays the live one, whatever flushes record. */
  lemma {:induction false} QuietStaysCurrent(p: History, h: History)
    requires h.Valid() && p.Valid() && !p.Now().open && Quiet(h, Happened(p, Open(true)))
    ensures h.Now().recorded == Token(h.Now().token) && h.Now().since == h.Now().token == p.Now().token
  {
    hide SessionInv;
    if h != Happened(p, Open(true)) { QuietStaysCurrent(p, h.prev); }
  }

  /**
    A session opened with a known token, or several in a row, in which no upload lands and nobody else changes the blob,
    loses nothing: the next open leaves `present` and `dirty` exactly as the last close put them in the metadata file.
  */
  lemma QuietSessionIsKept(p: History, h: History, present: set<nat>, dirty: set<nat>, known: bool)
    requires p.Valid() && !p.Now().open && h.Valid() && Quiet(h, Happened(p, Open(true)))
    requires CanDo(h.Now(), Close(present, dirty))
    ensures var o := Do(Do(h.Now(), Close(present, dirty)), Open(known));
      o.fc.present == present && o.fc.dirty == dirty && o.fc.data == h.Now().fc.data && o.recorded == Token(o.token)
  {
    QuietStaysCurrent(p, h);
  }

  /** An upload that lands and is not followed by a record costs every clean page at the next open. */
  lemma UnrecordedUploadDropsClean(h: History, l: Label, present: set<nat>, dirty: set<nat>)
    requires h.Valid() && l.Land? && CanDo(h.Now(), Work(l)) && CanDo(Do(h.Now(), Work(l)), Close(present, dirty))
    ensures var o := Do(Do(Do(h.Now(), Work(l)), Close(present, dirty)), Open(true));
      o.fc.present == dirty && o.fc.dirty == dirty
  {
    hide SessionInv;
    CurrentExactly(h);
  }

  // ----- What the metadata file holds when a session ends -----

  /**
    A session that ends, cleanly or by a crash at any file operation, between client writes and with no page listed
    wrongly, leaves in the metadata file at least the dirty pages as dirty and at most the present pages as present.
  */
  lemma EndLeavesBits(h: CrashRecovery.History)
    requires h.Valid() && Booted(h.Origin()) && !h.Now().fc.client.Writer? && CacheDisk.Stale(h.Now()) == {}
    ensures h.Now().fc.dirty <= h.Now().disk.dirty <= h.Now().disk.present <= h.Now().fc.present
    ensures CanDo(World(true, h.Now().fc, 0, NoToken, 0), Close(h.Now().disk.present, h.Now().disk.dirty))
  {
    CrashRecovery.HistoryKeepsInv(h);
    BitsOrdered(h.Now());
  }

  lemma BitsOrdered(w: CacheDisk.World)
    requires CacheDisk.DiskInv(w) && !w.fc.client.Writer? && CacheDisk.Stale(w) == {}
    ensures w.fc.Shape() && w.fc.dirty <= w.disk.dirty <= w.disk.present <= w.fc.present
  {
    forall q | q in w.fc.dirty ensures q in w.disk.dirty {
      assert CacheDisk.Settled(w.disk, q) || w.disk.pending.page == q;
    }
    assert forall q | q in w.disk.present :: q in w.fc.present || q in CacheDisk.Stale(w);
  }

  // ----- When no token can be read -----

  /** The device an up-to-date cache would show: its own dirty pages over the live blob. */
  function Live(s: State): (v: seq<Byte>)
    requires s.Shape()
    ensures |v| == |s.blob| && forall k | 0 <= k < |v| :: v[k] == if s.pg[k] in s.dirty then s.data[k] else s.blob[k]
  {
    seq(|s.blob|, k requires 0 <= k < |s.blob| => if s.pg[k] in s.dirty then s.data[k] else s.blob[k])
  }

  /** A closed cache after outside writes have left `blob`. */
  function Changed(w: World, blob: seq<Byte>, writes: nat): World {
    w.(fc := w.fc.(blob := blob), token := w.token + writes)
  }

  /**
    Opening without a token shows the live device exactly if, since the clean pages were last in step with the blob,
    nobody has changed a byte of a clean page that was kept.
  */
  lemma UnknownTokenServesExactly(w: World, blob: seq<Byte>, writes: nat)
    requires SessionInv(w) && !w.open && CleanIsBlob(w.fc) && |blob| == |w.fc.blob|
    ensures var o := Do(Changed(w, blob, writes), Open(false));
      && o.fc.Shape()
      && (View(o.fc) == Live(o.fc) <==>
            forall k: nat | k < |blob| && w.fc.pg[k] in w.fc.present && w.fc.pg[k] !in w.fc.dirty :: blob[k] == w.fc.blob[k])
  {
    var o := Do(Changed(w, blob, writes), Open(false));
    forall k: nat | k < |blob|
      ensures View(o.fc)[k] == Live(o.fc)[k] <==>
              (w.fc.pg[k] in w.fc.present && w.fc.pg[k] !in w.fc.dirty ==> blob[k] == w.fc.blob[k])
    {
      assert View(o.fc)[k] == At(o.fc, k);
    }
    if View(o.fc) != Live(o.fc) {
      var k :| 0 <= k < |blob| && View(o.fc)[k] != Live(o.fc)[k];
    }
  }

  /** If the token cannot be read, a page the outside world has changed is served stale. */
  lemma UnknownTokenServesStaleByte()
    ensures var w := World(true, OneByte(2, 2, {0}, {}, map[], map[]), 5, Token(5), 5);
      && SessionInv(w) && CanDo(w, Close({0}, {}))
      && var o := Do(Do(Do(w, Close({0}, {})), Outside(map[0 := 3])), Open(false));
         o.fc.Shape() && o.fc.blob == [3] && View(o.fc) == [2]
  {
  }

  /**
    What any open shows, whatever came before: the live device, exactly if the clean pages are dropped because the token
    is known and is not the recorded one, or every clean page is in step with the blob.
  */
  lemma OpenServesExactly(w: World, known: bool)
    requires !w.open && w.fc.Shape() && w.fc.client.Idle? && w.fc.dirty <= w.fc.present
    ensures var o := Do(w, Open(known));
      && o.fc.Shape()
      && (View(o.fc) == Live(o.fc) <==> (known && w.recorded != Token(w.token)) || CleanIsBlob(w.fc))
  {
    var o := Do(w, Open(known));
    forall k: nat | k < |w.fc.blob|
      ensures View(o.fc)[k] == Live(o.fc)[k] <==>
              (o.fc.pg[k] in o.fc.present && o.fc.pg[k] !in o.fc.dirty ==> o.fc.data[k] == o.fc.blob[k])
    {
      assert View(o.fc)[k] == At(o.fc, k);
    }
    if View(o.fc) != Live(o.fc) {
      var k :| 0 <= k < |w.fc.blob| && View(o.fc)[k] != Live(o.fc)[k];
    }
  }

  // ----- A token recorded over stale pages -----

  ghost predicate Reached(h: History, w: World) { h.Valid() && h.Now() == w }

  ghost predicate Steps(w: World, e: Event, v: World) { CanDo(w, e) && v == Do(w, e) }

  lemma Go(h: History, w: World, e: Event, v: World) returns (g: History)
    requires Reached(h, w) && Steps(w, e, v)
    ensures Reached(g, v)
  {
    g := Happened(h, e);
  }

  /** Two pages of one byte; page 0 is clean. */
  function TwoPages(blob: seq<Byte>, dirty: set<nat>, flights: map<nat, Flight>): State {
    State([0, 1], blob, [2, 5], {0, 1}, dirty, map[], flights, map[], Idle)
  }

  lemma SecondPage()
    ensures PageKeys([0, 1], 1) == {1} && Cut([2, 5], {1}) == map[1 := 5]
    ensures Overlay([3, 0], Restrict(map[1 := 5], {1})) == [3, 5] && Overlay([2, 0], map[0 := 3]) == [3, 0]
  {
    assert Restrict(map[1 := 5], {1}) == map[1 := 5];
  }

  lemma ChangedOutside()
    ensures Steps(World(true, TwoPages([2, 0], {1}, map[]), 5, Token(5), 5), Close({0, 1}, {1}), World(false, TwoPages([2, 0], {1}, map[]), 5, Token(5), 5))
    ensures Steps(World(false, TwoPages([2, 0], {1}, map[]), 5, Token(5), 5), Outside(map[0 := 3]), World(false, TwoPages([3, 0], {1}, map[]), 6, Token(5), 5))
    ensures Steps(World(false, TwoPages([3, 0], {1}, map[]), 6, Token(5), 5), Open(false), World(true, TwoPages([3, 0], {1}, map[]), 6, Token(5), 6))
  {
    SecondPage();
  }

  /** The upload of page 1, as far as it has landed. */
  function UploadOf(landed: set<nat>): Flight { Flight(1, 0, map[1 := 5], landed) }

  lemma SnapshotsSecond()
    ensures Steps(World(true, TwoPages([3, 0], {1}, map[]), 6, Token(5), 6), Work(Snapshot(9, 1)),
                  World(true, TwoPages([3, 0], {1}, map[9 := UploadOf({})]), 6, Token(5), 6))
  {
    SecondPage();
    assert map[][9 := UploadOf({})] == map[9 := UploadOf({})];
  }

  lemma LandsSecond()
    ensures Steps(World(true, TwoPages([3, 0], {1}, map[9 := UploadOf({})]), 6, Token(5), 6), Work(Land(9, {1})),
                  World(true, TwoPages([3, 5], {1}, map[9 := UploadOf({1})]), 7, Token(5), 6))
  {
    SecondPage();
    assert {} + {1} == {1} && map[9 := UploadOf({})][9 := UploadOf({1})] == map[9 := UploadOf({1})];
  }

  lemma FinishesSecond()
    ensures Steps(World(true, TwoPages([3, 5], {1}, map[9 := UploadOf({1})]), 7, Token(5), 6), Work(Finish(9)),
                  World(true, TwoPages([3, 5], {}, map[]), 7, Token(5), 6))
  {
    assert {1} - {1} == {} && map[9 := UploadOf({1})] - {9} == map[];
  }

  lemma RecordsAndCloses()
    ensures Steps(World(true, TwoPages([3, 5], {}, map[]), 7, Token(5), 6), Record(7), World(true, TwoPages([3, 5], {}, map[]), 7, Token(7), 6))
    ensures Steps(World(true, TwoPages([3, 5], {}, map[]), 7, Token(7), 6), Close({0, 1}, {}), World(false, TwoPages([3, 5], {}, map[]), 7, Token(7), 6))
  {
  }

  /**
    Page 0 is changed outside and kept because no token could be read.  A flush of page 1 then records the live token over
    it, so that the next open, which does read the token, trusts the stale page.
  */
  lemma RecordedOverStalePage() returns (h: History)
    ensures h.Valid() && !h.Now().open && h.Now().recorded == Token(h.Now().token)
    ensures var o := Do(h.Now(), Open(true)); o.fc.Shape() && o.fc.blob == [3, 5] && View(o.fc) == [2, 5]
  {
    hide Reached, Steps;
    ChangedOutside();
    SnapshotsSecond();
    LandsSecond();
    FinishesSecond();
    RecordsAndCloses();
    var w0 := World(true, TwoPages([2, 0], {1}, map[]), 5, Token(5), 5);
    var w1 := World(false, TwoPages([2, 0], {1}, map[]), 5, Token(5), 5);
    var w2 := World(false, TwoPages([3, 0], {1}, map[]), 6, Token(5), 5);
    var w3 := World(true, TwoPages([3, 0], {1}, map[]), 6, Token(5), 6);
    var w4 := World(true, TwoPages([3, 0], {1}, map[9 := UploadOf({})]), 6, Token(5), 6);
    var w5 := World(true, TwoPages([3, 5], {1}, map[9 := UploadOf({1})]), 7, Token(5), 6);
    var w6 := World(true, TwoPages([3, 5], {}, map[]), 7, Token(5), 6);
    var w7 := World(true, TwoPages([3, 5], {}, map[]), 7, Token(7), 6);
    var w8 := World(false, TwoPages([3, 5], {}, map[]), 7, Token(7), 6);
    h := Begin(w0);
    StartsProper(w0);
    h := Go(h, w0, Close({0, 1}, {1}), w1);
    h := Go(h, w1, Outside(map[0 := 3]), w2);
    h := Go(h, w2, Open(false), w3);
    h := Go(h, w3, Work(Snapshot(9, 1)), w4);
    h := Go(h, w4, Work(Land(9, {1})), w5);
    h := Go(h, w5, Work(Finish(9)), w6);
    h := Go(h, w6, Record(7), w7);
    h := Go(h, w7, Close({0, 1}, {}), w8);
    ServesStale(h, w8);
  }

  lemma StartsProper(w: World)
    requires w == World(true, TwoPages([2, 0], {1}, map[]), 5, Token(5), 5)
    ensures Reached(Begin(w), w)
  {
  }

  lemma ServesStale(h: History, w: World)
    requires Reached(h, w) && w == World(false, TwoPages([3, 5], {}, map[]), 7, Token(7), 6)
    ensures h.Valid() && h.Now() == w
    ensures var o := Do(w, Open(true)); o.fc.Shape() && o.fc.blob == [3, 5] && View(o.fc) == [2, 5]
  {
  }
}
