/**
  Cross-process page sharing: an index of clean pages under a file lock.

  Every owner is one cache directory name with its data file; it may die at any point and be restarted under a
  new process id.  A peer reads an owner's page byte range by byte range while it holds the index lock shared;
  publishing, withdrawing and pruning take the lock exclusively.
*/
module PageIndex {
  import opened Store
  import opened FileCache
  import opened FileCacheRefinement
  import opened FileCacheRuns

  /**
    What an owner is in the middle of, under its state lock: it has withdrawn a page in order to change it, or
    it has just cleaned a page and is about to publish it.
  */
  datatype Duty = Free | Claimed(page: nat) | Owes(page: nat)

  datatype Owner = Owner(pid: nat, alive: bool, fc: State, duty: Duty)

  datatype Entry = Entry(owner: nat, pid: nat, page: nat)

  /** A peer's read in progress; `was` is the page as it stood when the read began. */
  datatype Read = Read(owner: nat, page: nat, got: Image, was: Image)

  datatype World = World(owners: map<nat, Owner>, entries: set<Entry>, reading: map<nat, Read>, pids: nat) {
    predicate Live(e: Entry) {
      e.owner in owners && owners[e.owner].alive && owners[e.owner].pid == e.pid
    }

    /** The index as the next holder of the exclusive lock finds it: entries of dead processes are pruned. */
    function Pruned(): set<Entry> { set e | e in entries && Live(e) }
  }

  datatype Event =
    | Work(owner: nat, l: Label)
    | Unpublish(owner: nat, page: nat)
    | Publish(owner: nat, page: nat)
    | Die(owner: nat)
    | Restart(owner: nat, fc: State)
    | BeginRead(id: nat, owner: nat, page: nat)
    | ReadBytes(id: nat, keys: set<nat>)
    | EndRead(id: nat)

  /** An owner changes a page's bytes only after withdrawing it, and publishes right after cleaning it. */
  predicate InOrder(o: Owner, l: Label) {
    match o.duty
    case Free => !l.PutData? && !l.Evict? && !l.MarkDirty?
    case Claimed(p) => Unlocked(l) || ((l.PutData? || l.Evict? || l.MarkDirty?) && l.page == p)
    case Owes(p) => Unlocked(l)
  }

  ghost function DutyAfter(o: Owner, l: Label): Duty
    requires Enabled(o.fc, l)
  {
    if l.MarkDirty? || l.Evict? then Free
    else if l.Finish? && SameGeneration(o.fc, o.fc.flights[l.id]) then Owes(o.fc.flights[l.id].page)
    else o.duty
  }

  ghost predicate CanDo(w: World, e: Event) {
    match e
    case Work(o, l) => o in w.owners && w.owners[o].alive && Enabled(w.owners[o].fc, l) && InOrder(w.owners[o], l)
    case Unpublish(o, p) => o in w.owners && w.owners[o].alive && w.owners[o].duty.Free? && w.reading == map[]
    case Publish(o, p) =>
      && o in w.owners && w.owners[o].alive && w.reading == map[]
      && (w.owners[o].duty == Owes(p) ||
          (w.owners[o].duty.Free? && p in w.owners[o].fc.present && p !in w.owners[o].fc.dirty) ||
          (w.owners[o].duty == Claimed(p) && p in w.owners[o].fc.present && p !in w.owners[o].fc.dirty && w.owners[o].fc.Calm()))
    case Die(o) => o in w.owners
    case Restart(o, fc) =>
      o in w.owners && !w.owners[o].alive && w.reading == map[] && Opened(fc) && fc.data == w.owners[o].fc.data
    case BeginRead(id, o, p) =>
      id !in w.reading && exists e | e in w.entries :: w.Live(e) && e.owner == o && e.page == p
    case ReadBytes(id, keys) =>
      id in w.reading && w.reading[id].owner in w.owners && keys <= PageKeys(w.owners[w.reading[id].owner].fc.pg, w.reading[id].page)
    case EndRead(id) => id in w.reading
  }

  ghost function Page(w: World, o: nat, p: nat): Image
    requires o in w.owners
  {
    Cut(w.owners[o].fc.data, PageKeys(w.owners[o].fc.pg, p))
  }

  ghost function Do(w: World, e: Event): World
    requires CanDo(w, e)
  {
    match e
    case Work(o, l) =>
      var x := w.owners[o];
      w.(owners := w.owners[o := x.(fc := Next(x.fc, l), duty := DutyAfter(x, l))])
    case Unpublish(o, p) =>
      w.(owners := w.owners[o := w.owners[o].(duty := Claimed(p))],
         entries := w.Pruned() - {Entry(o, w.owners[o].pid, p)})
    case Publish(o, p) =>
      w.(owners := w.owners[o := w.owners[o].(duty := Free)],
         entries := w.Pruned() + {Entry(o, w.owners[o].pid, p)})
    case Die(o) => w.(owners := w.owners[o := w.owners[o].(alive := false)])
    case Restart(o, fc) =>
      w.(owners := w.owners[o := Owner(w.pids, true, fc, Free)], entries := w.Pruned(), pids := w.pids + 1)
    case BeginRead(id, o, p) => w.(reading := w.reading[id := Read(o, p, map[], Page(w, o, p))])
    case ReadBytes(id, keys) =>
      var r := w.reading[id];
      w.(reading := w.reading[id := r.(got := r.got + Cut(w.owners[r.owner].fc.data, keys))])
    case EndRead(id) => w.(reading := w.reading - {id})
  }

  /** The one hypothesis: flushes of one page do not overlap. */
  ghost predicate Careful(w: World, e: Event) {
    e.Work? && e.owner in w.owners ==> NoOverlap(w.owners[e.owner].fc, e.l)
  }

  // ----- Invariant -----

  /** Dirty pages are present, and each page in flight is dirty and in flight once. */
  ghost predicate CacheOk(s: State) {
    && s.Shape()
    && s.dirty <= s.present
    && (forall id | id in s.flights :: s.flights[id].page in s.dirty)
    && (forall i, j | i in s.flights && j in s.flights && i != j :: s.flights[i].page != s.flights[j].page)
  }

  lemma WorkKeepsCache(s: State, l: Label)
    requires Enabled(s, l) && NoOverlap(s, l) && CacheOk(s)
    ensures CacheOk(Next(s, l))
  {
    var t := Next(s, l);
    if l.Finish? {
      assert t == Finished(s, l.id);
    } else if l.Snapshot? {
      assert t == Snapshotted(s, l.id, l.page);
    } else if l.Land? {
      assert t == Landed(s, l.id, l.keys);
    } else if l.Fail? {
      assert t == s.(flights := s.flights - {l.id});
    } else {
      assert t.flights == s.flights && s.dirty <= t.dirty;
    }
  }

  /** Every owner that is alive runs a cache in order; process ids are never reused. */
  ghost predicate OwnersOk(w: World) {
    && (forall o | o in w.owners :: w.owners[o].pid < w.pids && w.owners[o].fc.Shape())
    && (forall o | o in w.owners && w.owners[o].alive :: CacheOk(w.owners[o].fc) && DutyOk(w.owners[o]))
    && (forall e | e in w.entries :: e.pid < w.pids)
  }

  /** A page about to be published is present and clean; a page half written has been withdrawn. */
  ghost predicate DutyOk(o: Owner) {
    && (o.duty.Owes? ==> o.duty.page in o.fc.present && o.duty.page !in o.fc.dirty && o.fc.Calm())
    && (o.fc.client.Writer? && o.fc.client.part != {} ==>
          o.duty.Claimed? && o.fc.client.part <= PageKeys(o.fc.pg, o.duty.page))
  }

  /** Every listed page of a live owner is present and clean, and its owner is not about to change it. */
  ghost predicate ListedOk(w: World) {
    forall e | e in w.entries && w.Live(e) ::
      && e.page in w.owners[e.owner].fc.present
      && e.page !in w.owners[e.owner].fc.dirty
      && w.owners[e.owner].duty != Claimed(e.page)
  }

  /** A page being read is listed, or its owner died during the read; either way its bytes do not move. */
  ghost predicate ReadOk(w: World, r: Read) {
    && r.owner in w.owners
    && w.owners[r.owner].fc.Shape()
    && (w.owners[r.owner].alive ==> Entry(r.owner, w.owners[r.owner].pid, r.page) in w.entries)
    && Page(w, r.owner, r.page) == r.was
    && r.got.Keys <= r.was.Keys
    && (forall k | k in r.got :: r.got[k] == r.was[k])
  }

  ghost predicate IndexInv(w: World) {
    OwnersOk(w) && ListedOk(w) && forall id | id in w.reading :: ReadOk(w, w.reading[id])
  }

  lemma WorkKeepsListedBits(o: Owner, l: Label, p: nat)
    requires Enabled(o.fc, l) && InOrder(o, l) && p in o.fc.present && p !in o.fc.dirty && o.duty != Claimed(p)
    ensures var t := Next(o.fc, l);
      t.Shape() && t.pg == o.fc.pg && p in t.present && p !in t.dirty && DutyAfter(o, l) != Claimed(p)
  {
  }

  lemma WorkKeepsListedBytes(o: Owner, l: Label, p: nat)
    requires Enabled(o.fc, l) && InOrder(o, l)
    requires p in o.fc.present && o.duty != Claimed(p)
    ensures var t := Next(o.fc, l);
      t.Shape() && t.pg == o.fc.pg && Cut(t.data, PageKeys(t.pg, p)) == Cut(o.fc.data, PageKeys(o.fc.pg, p))
  {
    var s, t := o.fc, Next(o.fc, l);
    if l.PutData? {
      assert t == Put(s, l.page, l.keys) && l.page != p;
    } else if l.FetchPut? {
      assert t == FetchedPut(s, l.id, l.keys);
    } else if l.Evict? {
      assert t == Evicted(s, l.page) && l.page != p;
    } else {
      assert t.data == s.data;
    }
    assert Cut(t.data, PageKeys(t.pg, p)) == Cut(s.data, PageKeys(s.pg, p));
  }

  lemma WorkKeepsDuty(o: Owner, l: Label)
    requires CacheOk(o.fc) && DutyOk(o) && Enabled(o.fc, l) && InOrder(o, l)
    ensures DutyOk(o.(fc := Next(o.fc, l), duty := DutyAfter(o, l)))
  {
  }

  lemma WorkKeepsIndex(w: World, o: nat, l: Label)
    requires IndexInv(w) && CanDo(w, Work(o, l)) && Careful(w, Work(o, l))
    ensures IndexInv(Do(w, Work(o, l)))
  {
    var v := Do(w, Work(o, l));
    var x := w.owners[o];
    WorkKeepsCache(x.fc, l);
    WorkKeepsDuty(x, l);
    forall e | e in v.entries && v.Live(e)
      ensures e.page in v.owners[e.owner].fc.present && e.page !in v.owners[e.owner].fc.dirty
      ensures v.owners[e.owner].duty != Claimed(e.page)
    {
      assert w.Live(e);
      if e.owner == o {
        WorkKeepsListedBits(x, l, e.page);
      }
    }
    forall id | id in v.reading ensures ReadOk(v, v.reading[id]) {
      var r := w.reading[id];
      assert ReadOk(w, r);
      if r.owner == o {
        assert w.Live(Entry(o, x.pid, r.page));
        WorkKeepsListedBytes(x, l, r.page);
      }
    }
  }

  lemma LockKeepsIndex(w: World, e: Event)
    requires IndexInv(w) && CanDo(w, e) && (e.Unpublish? || e.Publish?)
    ensures IndexInv(Do(w, e))
  {
    var v := Do(w, e);
    forall x | x in v.entries && v.Live(x)
      ensures x.page in v.owners[x.owner].fc.present && x.page !in v.owners[x.owner].fc.dirty
      ensures v.owners[x.owner].duty != Claimed(x.page)
    {
      assert w.Live(x);
    }
  }

  lemma LifeKeepsIndex(w: World, e: Event)
    requires IndexInv(w) && CanDo(w, e) && (e.Die? || e.Restart?)
    ensures IndexInv(Do(w, e))
  {
    var v := Do(w, e);
    forall x | x in v.entries && v.Live(x)
      ensures w.Live(x) && v.owners[x.owner] == w.owners[x.owner]
    {
    }
    forall id | id in v.reading ensures ReadOk(v, v.reading[id]) {
      assert ReadOk(w, w.reading[id]);
    }
    if e.Restart? {
      assert CacheOk(e.fc);
    }
  }

  lemma ListedSame(w: World, v: World)
    requires ListedOk(w) && OwnersOk(w) && v.owners == w.owners && v.entries == w.entries && v.pids == w.pids
    ensures ListedOk(v) && OwnersOk(v)
  {
  }

  lemma ReadKeepsIndex(w: World, e: Event)
    requires IndexInv(w) && CanDo(w, e) && (e.BeginRead? || e.ReadBytes? || e.EndRead?)
    ensures IndexInv(Do(w, e))
  {
    hide OwnersOk, ListedOk, ReadOk;
    var v := Do(w, e);
    ListedSame(w, v);
    forall id | id in v.reading ensures ReadOk(v, v.reading[id]) {
      if id in w.reading {
        assert ReadOk(w, w.reading[id]);
        GoneOnReading(w, e, id);
      } else {
        JustReading(w, e);
      }
    }
  }

  lemma JustReading(w: World, e: Event)
    requires OwnersOk(w) && CanDo(w, e) && e.BeginRead?
    ensures ReadOk(Do(w, e), Do(w, e).reading[e.id])
  {
    hide CacheOk, DutyOk;
  }

  lemma GoneOnReading(w: World, e: Event, id: nat)
    requires id in w.reading && ReadOk(w, w.reading[id]) && CanDo(w, e) && (e.BeginRead? || e.ReadBytes? || e.EndRead?)
    ensures id in Do(w, e).reading ==> ReadOk(Do(w, e), Do(w, e).reading[id])
  {
  }

  lemma EventKeepsIndexInv(w: World, e: Event)
    requires IndexInv(w) && CanDo(w, e) && Careful(w, e)
    ensures IndexInv(Do(w, e))
  {
    match e
    case Work(o, l) => WorkKeepsIndex(w, o, l);
    case Unpublish(_, _) => LockKeepsIndex(w, e);
    case Publish(_, _) => LockKeepsIndex(w, e);
    case Die(_) => LifeKeepsIndex(w, e);
    case Restart(_, _) => LifeKeepsIndex(w, e);
    case BeginRead(_, _, _) => ReadKeepsIndex(w, e);
    case ReadBytes(_, _) => ReadKeepsIndex(w, e);
    case EndRead(_) => ReadKeepsIndex(w, e);
  }

  // ----- Histories -----

  datatype History = Begin(w: World) | Happened(prev: History, e: Event) {
    ghost predicate Valid()
      decreases this, 0
    {
      match this
      case Begin(w) => w.entries == {} && w.reading == map[] && OwnersOk(w)
      case Happened(h, e) => h.Valid() && CanDo(h.Now(), e)
    }

    ghost function Now(): World
      requires Valid()
      decreases this, 1
    {
      match this
      case Begin(w) => w
      case Happened(h, e) => Do(h.Now(), e)
    }

    /** The hypothesis holds along the history. */
    ghost predicate NeverOverlaps()
      requires Valid()
    {
      this.Happened? ==> prev.NeverOverlaps() && Careful(prev.Now(), e)
    }
  }

  lemma {:induction false} HistoryKeepsIndexInv(h: History)
    requires h.Valid() && h.NeverOverlaps()
    ensures IndexInv(h.Now())
  {
    if h.Happened? {
      HistoryKeepsIndexInv(h.prev);
      EventKeepsIndexInv(h.prev.Now(), h.e);
    }
  }

  /** Every entry a peer may follow names a page that is present and clean. */
  lemma ListedPageIsClean(h: History, e: Entry)
    requires h.Valid() && h.NeverOverlaps() && e in h.Now().entries && h.Now().Live(e)
    ensures e.page in h.Now().owners[e.owner].fc.present && e.page !in h.Now().owners[e.owner].fc.dirty
  {
    hide OwnersOk, ReadOk;
    HistoryKeepsIndexInv(h);
  }

  /**
    A peer that reads a page to the end gets the page exactly as it stood when the read began, and as it still
    stands when it ends: never a torn mixture, never a punched hole.
  */
  lemma PeerReadIsWhole(h: History, id: nat)
    requires h.Valid() && h.NeverOverlaps() && id in h.Now().reading
    requires var r := h.Now().reading[id]; r.owner in h.Now().owners && r.got.Keys == Page(h.Now(), r.owner, r.page).Keys
    ensures var r := h.Now().reading[id]; r.got == r.was == Page(h.Now(), r.owner, r.page)
  {
    HistoryKeepsIndexInv(h);
    assert ReadOk(h.Now(), h.Now().reading[id]);
  }

  // ----- What is listed -----

  /** The last thing the process that owns `o` did about page `p`, since it started, was to publish it. */
  ghost predicate Published(h: History, o: nat, p: nat)
    requires h.Valid()
  {
    match h
    case Begin(_) => false
    case Happened(b, Publish(x, q)) => (x == o && q == p) || Published(b, o, p)
    case Happened(b, Unpublish(x, q)) => !(x == o && q == p) && Published(b, o, p)
    case Happened(b, Die(x)) => x != o && Published(b, o, p)
    case Happened(b, Restart(x, _)) => x != o && Published(b, o, p)
    case Happened(b, _) => Published(b, o, p)
  }

  ghost predicate PidsOk(w: World) {
    && (forall o | o in w.owners :: w.owners[o].pid < w.pids)
    && (forall e | e in w.entries :: e.pid < w.pids)
  }

  lemma StepKeepsPids(w: World, e: Event)
    requires PidsOk(w) && CanDo(w, e)
    ensures PidsOk(Do(w, e))
  {
  }

  lemma {:induction false} HistoryKeepsPids(h: History)
    requires h.Valid()
    ensures PidsOk(h.Now())
  {
    hide CanDo, Do, PidsOk;
    if h.Happened? {
      HistoryKeepsPids(h.prev);
      StepKeepsPids(h.prev.Now(), h.e);
    } else {
      BeginsPids(h.w);
    }
  }

  lemma BeginsPids(w: World)
    requires OwnersOk(w)
    ensures PidsOk(w)
  {
  }

  /** The index lists page `p` of the process that owns `o`. */
  ghost predicate IsListed(w: World, o: nat, p: nat) {
    o in w.owners && w.owners[o].alive && Entry(o, w.owners[o].pid, p) in w.entries
  }

  /** What one event does to an entry. */
  lemma ListStep(w: World, e: Event, o: nat, p: nat)
    requires PidsOk(w) && CanDo(w, e)
    ensures IsListed(Do(w, e), o, p) <==>
              if e == Publish(o, p) then true
              else if e == Unpublish(o, p) || e == Die(o) || (e.Restart? && e.owner == o) then false
              else IsListed(w, o, p)
  {
  }

  /** Over every history, the index lists a page of a live process exactly while it stands published. */
  lemma {:induction false} ListedExactly(h: History, o: nat, p: nat)
    requires h.Valid()
    ensures IsListed(h.Now(), o, p) <==> Published(h, o, p)
  {
    hide CanDo, Do, IsListed, PidsOk, OwnersOk;
    if h.Happened? {
      HistoryKeepsPids(h.prev);
      ListedExactly(h.prev, o, p);
      ListStep(h.prev.Now(), h.e, o, p);
    } else {
      NothingListed(h.w, o, p);
    }
  }

  lemma NothingListed(w: World, o: nat, p: nat)
    requires w.entries == {}
    ensures !IsListed(w, o, p)
  {
  }

  /** A peer may begin to read a page exactly while it stands published, and one read of all its bytes then suffices. */
  lemma PeerReadsExactly(h: History, id: nat, o: nat, p: nat)
    requires h.Valid() && id !in h.Now().reading
    ensures CanDo(h.Now(), Event.BeginRead(id, o, p)) <==> Published(h, o, p)
    ensures Published(h, o, p) ==>
      var begun := Do(h.Now(), Event.BeginRead(id, o, p));
      && o in begun.owners
      && CanDo(begun, ReadBytes(id, PageKeys(begun.owners[o].fc.pg, p)))
      && Do(begun, ReadBytes(id, PageKeys(begun.owners[o].fc.pg, p))).reading[id].got == Page(h.Now(), o, p)
  {
    ListedExactly(h, o, p);
    var w := h.Now();
    if IsListed(w, o, p) {
      assert w.Live(Entry(o, w.owners[o].pid, p));
    }
    if e :| e in w.entries && w.Live(e) && e.owner == o && e.page == p {
      assert e == Entry(o, w.owners[o].pid, p);
    }
  }

  /** From every state the readers can end, so that the lock is free, and nothing else has changed. */
  lemma {:induction false} ReadersLeave(h: History) returns (g: History)
    requires h.Valid()
    ensures g.Valid() && g.Now() == h.Now().(reading := map[])
    decreases h.Now().reading.Keys
  {
    hide OwnersOk;
    if h.Now().reading.Keys == {} { return h; }
    var id :| id in h.Now().reading.Keys;
    g := ReadersLeave(Happened(h, Event.EndRead(id)));
  }

  /** Whoever takes the lock exclusively leaves no entry of a dead process behind. */
  lemma LockPrunes(w: World, e: Event, x: Entry)
    requires PidsOk(w) && CanDo(w, e) && (e.Publish? || e.Unpublish? || e.Restart?)
    ensures x in Do(w, e).entries ==> Do(w, e).Live(x)
    ensures w.Live(x) && e.Restart? ==> (x in Do(w, e).entries <==> x in w.entries)
  {
  }

  // ----- What is listed is the blob -----

  /** Every live cache satisfies the cache's own invariant. */
  ghost predicate Proper(w: World) { forall o | o in w.owners && w.owners[o].alive :: Inv(w.owners[o].fc) }

  /** All hypotheses of the cache hold along the history. */
  ghost predicate AllDisciplined(h: History)
    requires h.Valid()
  {
    match h
    case Begin(w) => Proper(w)
    case Happened(b, e) => AllDisciplined(b) && (e.Work? ==> Disciplined(b.Now().owners[e.owner].fc, e.l))
  }

  lemma StepStaysProper(w: World, e: Event)
    requires CanDo(w, e) && Proper(w) && (e.Work? ==> Disciplined(w.owners[e.owner].fc, e.l))
    ensures Proper(Do(w, e))
  {
    if e.Work? {
      StepRefines(w.owners[e.owner].fc, e.l);
    } else if e.Restart? {
      assert Inv(e.fc);
    }
  }

  lemma {:induction false} HistoryStaysProper(h: History)
    requires h.Valid() && AllDisciplined(h)
    ensures Proper(h.Now())
  {
    hide CanDo, Do, Proper;
    if h.Happened? {
      HistoryStaysProper(h.prev);
      StepStaysProper(h.prev.Now(), h.e);
    }
  }

  /** Under all the cache's hypotheses a listed page is also equal to its owner's blob. */
  lemma ListedPageIsTheBlob(h: History, e: Entry)
    requires h.Valid() && h.NeverOverlaps() && AllDisciplined(h) && e in h.Now().entries && h.Now().Live(e)
    ensures var fc := h.Now().owners[e.owner].fc;
      fc.Shape() && Cut(fc.data, PageKeys(fc.pg, e.page)) == Cut(fc.blob, PageKeys(fc.pg, e.page))
  {
    HistoryKeepsIndexInv(h);
    HistoryStaysProper(h);
    CleanPageIsBlob(h.Now().owners[e.owner], e.page);
  }

  lemma CleanPageIsBlob(o: Owner, p: nat)
    requires Inv(o.fc) && DutyOk(o) && p in o.fc.present && p !in o.fc.dirty && o.duty != Claimed(p)
    ensures Cut(o.fc.data, PageKeys(o.fc.pg, p)) == Cut(o.fc.blob, PageKeys(o.fc.pg, p))
  {
    forall k | k in PageKeys(o.fc.pg, p) ensures o.fc.data[k] == o.fc.blob[k] {
      assert !o.fc.InPart(k);
    }
  }

  // ----- What goes wrong when flushes overlap -----

  /** One owner of a one-page cache. */
  function Alone(fc: State, duty: Duty, entries: set<Entry>): World {
    World(map[1 := Owner(7, true, fc, duty)], entries, map[], 8)
  }

  ghost predicate Reached(h: History, w: World) { h.Valid() && h.Now() == w }

  /** A step of the owner's cache that its duty allows, and the duty after it. */
  ghost predicate Turns(fc: State, duty: Duty, l: Label, t: State, next: Duty) {
    && FileCacheRuns.Moves(fc, l, t) && Enabled(fc, l)
    && InOrder(Owner(7, true, fc, duty), l) && next == DutyAfter(Owner(7, true, fc, duty), l)
  }

  lemma Works(h: History, fc: State, duty: Duty, es: set<Entry>, l: Label, t: State, next: Duty) returns (g: History)
    requires Reached(h, Alone(fc, duty, es)) && Turns(fc, duty, l, t, next)
    ensures Reached(g, Alone(t, next, es))
  {
    g := Happened(h, Work(1, l));
    assert Alone(fc, duty, es).owners[1 := Owner(7, true, t, next)] == Alone(t, next, es).owners;
  }

  lemma Publishes(h: History, fc: State, es: set<Entry>) returns (g: History)
    requires Reached(h, Alone(fc, Owes(0), es)) && es <= {Entry(1, 7, 0)}
    ensures Reached(g, Alone(fc, Free, {Entry(1, 7, 0)}))
  {
    g := Happened(h, Publish(1, 0));
    var w := Alone(fc, Owes(0), es);
    assert w.owners[1 := Owner(7, true, fc, Free)] == Alone(fc, Free, es).owners;
    assert w.Pruned() + {Entry(1, 7, 0)} == {Entry(1, 7, 0)};
  }

  lemma Withdraws(h: History, fc: State) returns (g: History)
    requires Reached(h, Alone(fc, Free, {Entry(1, 7, 0)}))
    ensures Reached(g, Alone(fc, Claimed(0), {}))
  {
    g := Happened(h, Unpublish(1, 0));
    var w := Alone(fc, Free, {Entry(1, 7, 0)});
    assert w.owners[1 := Owner(7, true, fc, Claimed(0))] == Alone(fc, Claimed(0), {}).owners;
    assert w.Pruned() - {Entry(1, 7, 0)} == {};
  }

  /** An upload of the value 2, before and after its bytes have landed. */
  function Upload(landed: set<nat>): Flight { Flight(0, 0, map[0 := 2], landed) }

  function Uploads(first: seq<Flight>, second: seq<Flight>): map<nat, Flight> {
    (if first == [] then map[] else map[1 := first[0]]) + (if second == [] then map[] else map[2 := second[0]])
  }

  /** The page with the two uploads as they stand. */
  function Cache(data: Byte, blob: Byte, present: set<nat>, dirty: set<nat>, first: seq<Flight>, second: seq<Flight>): State {
    OneByte(data, blob, present, dirty, Uploads(first, second), map[])
  }

  lemma SnapshotTurns()
    ensures Turns(Cache(2, 0, {0}, {0}, [], []), Free, Snapshot(1, 0), Cache(2, 0, {0}, {0}, [Upload({})], []), Free)
    ensures Turns(Cache(2, 0, {0}, {0}, [Upload({})], []), Free, Snapshot(2, 0), Cache(2, 0, {0}, {0}, [Upload({})], [Upload({})]), Free)
  {
    SnapshotByte(Cache(2, 0, {0}, {0}, [], []), 1, 2);
    SnapshotByte(Cache(2, 0, {0}, {0}, [Upload({})], []), 2, 2);
    assert Uploads([], [])[1 := Upload({})] == Uploads([Upload({})], []);
    assert Uploads([Upload({})], [])[2 := Upload({})] == Uploads([Upload({})], [Upload({})]);
  }

  lemma LandTurns(data: Byte, blob: Byte, present: set<nat>, dirty: set<nat>)
    ensures Turns(Cache(data, blob, present, dirty, [Upload({})], [Upload({})]), Free, Land(1, {0}),
                  Cache(data, 2, present, dirty, [Upload({0})], [Upload({})]), Free)
    ensures Turns(Cache(data, blob, present, dirty, [], [Upload({})]), Free, Land(2, {0}),
                  Cache(data, 2, present, dirty, [], [Upload({0})]), Free)
  {
    LandByte(Cache(data, blob, present, dirty, [Upload({})], [Upload({})]), 1, blob, 2);
    LandByte(Cache(data, blob, present, dirty, [], [Upload({})]), 2, blob, 2);
    assert Uploads([Upload({})], [Upload({})])[1 := Upload({0})] == Uploads([Upload({0})], [Upload({})]);
    assert Uploads([], [Upload({})])[2 := Upload({0})] == Uploads([], [Upload({0})]);
  }

  lemma FirstFinishTurns()
    ensures Turns(Cache(2, 2, {0}, {0}, [Upload({0})], [Upload({})]), Free, Finish(1), Cache(2, 2, {0}, {}, [], [Upload({})]), Owes(0))
  {
    FinishByte(Cache(2, 2, {0}, {0}, [Upload({0})], [Upload({})]), 1);
    assert Uploads([Upload({0})], [Upload({})]) - {1} == Uploads([], [Upload({})]);
  }

  /** The page is gone, but its generation has not changed. */
  lemma SecondFinishTurns()
    ensures Turns(Cache(0, 2, {}, {}, [], [Upload({0})]), Free, Finish(2), Cache(0, 2, {}, {}, [], []), Owes(0))
  {
    assert Uploads([], [Upload({0})]) - {2} == Uploads([], []);
    assert {} - {0} == {};
  }

  lemma EvictTurns()
    ensures Turns(Cache(2, 2, {0}, {}, [], [Upload({})]), Claimed(0), Evict(0), Cache(0, 2, {}, {}, [], [Upload({})]), Free)
  {
    EvictByte(Cache(2, 2, {0}, {}, [], [Upload({})]), 2);
  }

  lemma AloneBegins()
    ensures Reached(Begin(Alone(Cache(2, 0, {0}, {0}, [], []), Free, {})), Alone(Cache(2, 0, {0}, {0}, [], []), Free, {}))
  {
  }

  lemma OverlapRun() returns (h: History)
    ensures Reached(h, Alone(Cache(0, 2, {}, {}, [], []), Free, {Entry(1, 7, 0)}))
  {
    hide Reached, Turns, Alone, Cache, Upload;
    var u, v := [Upload({})], [Upload({0})];
    h := Begin(Alone(Cache(2, 0, {0}, {0}, [], []), Free, {}));
    AloneBegins();
    SnapshotTurns();
    h := Works(h, Cache(2, 0, {0}, {0}, [], []), Free, {}, Snapshot(1, 0), Cache(2, 0, {0}, {0}, u, []), Free);
    h := Works(h, Cache(2, 0, {0}, {0}, u, []), Free, {}, Snapshot(2, 0), Cache(2, 0, {0}, {0}, u, u), Free);
    LandTurns(2, 0, {0}, {0});
    h := Works(h, Cache(2, 0, {0}, {0}, u, u), Free, {}, Land(1, {0}), Cache(2, 2, {0}, {0}, v, u), Free);
    FirstFinishTurns();
    h := Works(h, Cache(2, 2, {0}, {0}, v, u), Free, {}, Finish(1), Cache(2, 2, {0}, {}, [], u), Owes(0));
    h := Publishes(h, Cache(2, 2, {0}, {}, [], u), {});
    h := Withdraws(h, Cache(2, 2, {0}, {}, [], u));
    EvictTurns();
    h := Works(h, Cache(2, 2, {0}, {}, [], u), Claimed(0), {}, Evict(0), Cache(0, 2, {}, {}, [], u), Free);
    LandTurns(0, 2, {}, {});
    h := Works(h, Cache(0, 2, {}, {}, [], u), Free, {}, Land(2, {0}), Cache(0, 2, {}, {}, [], v), Free);
    SecondFinishTurns();
    h := Works(h, Cache(0, 2, {}, {}, [], v), Free, {}, Finish(2), Cache(0, 2, {}, {}, [], []), Owes(0));
    h := Publishes(h, Cache(0, 2, {}, {}, [], []), {});
  }

  /**
    Two flushes of one page overlap.  The first cleans and publishes it, it is evicted, and the second, whose generation
    still matches, publishes it again: the index names a page that is not there, and a peer reads its hole.
  */
  lemma OverlapListsAHole() returns (h: History)
    ensures h.Valid() && Entry(1, 7, 0) in h.Now().entries && h.Now().Live(Entry(1, 7, 0)) && 1 in h.Now().owners
    ensures var s := h.Now().owners[1].fc; 0 !in s.present && s.blob == [2] && Page(h.Now(), 1, 0) == map[0 := 0]
  {
    h := OverlapRun();
    OneByteFacts(0, 0);
  }
}
