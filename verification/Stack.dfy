/**
  The whole stack: memory buffer over local-disk cache over blob, each with its own paging.

  The buffer's inner store is the device the disk cache shows.  A buffer upload is a client write of the disk
  cache, a buffer load is a client read of it; the disk cache's own fetches, flushes and evictions go on
  underneath, and the buffer sees none of them.
*/
module Stack {
  import opened Store
  import FC = FileCache
  import FCR = FileCacheRefinement
  import FCRuns = FileCacheRuns
  import B = Buffer
  import BR = BufferRefinement
  import BRuns = BufferRuns

  /** Which buffer request holds the disk cache's state lock. */
  datatype User = Nobody | Uploading(flight: nat) | Loading(load: nat)

  datatype State = State(buf: B.State, fc: FC.State, user: User)

  datatype Label =
    | Top(b: B.Label)
    | Upload(flight: nat)
    | Load(load: nat)
    | Below(c: FC.Label)

  /** Buffer labels that do not touch the inner store. */
  predicate IsTop(b: B.Label) { !b.Land? && !b.LoadPart? }

  /**
    The disk cache's call is over, in success or failure.  A buffer request whose call failed, or was cancelled, part
    way through then fails in its turn, with some of its bytes in the disk cache.
  */
  predicate EndsCall(c: FC.Label) { c.EndWrite? || c.AbortWrite? || c.EndRead? || c.AbortRead? }

  /** The buffer request that a label ends, if any. */
  predicate Frees(user: User, b: B.Label) {
    || (user.Uploading? && (b.Finish? || b.Fail?) && b.id == user.flight)
    || (user.Loading? && (b.LoadInsert? || b.LoadDrop?) && b.id == user.load)
  }

  /** The offsets at which a step of the disk cache's writer becomes visible to readers. */
  function Shown(s: FC.State, c: FC.Label): set<nat> {
    match c
    case PutData(p, keys) => if p in s.present then keys else {}
    case MarkDirty(p) => if p in s.present || !s.client.Writer? then {} else s.client.part
    case _ => {}
  }

  ghost predicate Enabled(s: State, l: Label) {
    && s.fc.Shape()
    && s.buf.Shape()
    && match l
       case Top(b) => IsTop(b) && B.Enabled(s.buf, b) && !Frees(s.user, b)
       case Upload(id) => s.user.Nobody? && id in s.buf.flights && FC.Enabled(s.fc, FC.BeginWrite(s.buf.flights[id].img))
       case Load(id) =>
         s.user.Nobody? && id in s.buf.loads && FC.Enabled(s.fc, FC.BeginRead(PageKeys(s.buf.pg, s.buf.loads[id].page)))
       case Below(c) =>
         && !c.BeginWrite? && !c.BeginRead? && FC.Enabled(s.fc, c)
         && (s.user.Uploading? ==> s.user.flight in s.buf.flights)
         && (s.user.Loading? ==> s.user.load in s.buf.loads)
  }

  /** What a step of the disk cache does to the buffer request it serves. */
  ghost function Above(s: State, c: FC.Label): B.State
    requires Enabled(s, Below(c))
  {
    if s.user.Uploading? && (c.PutData? || c.MarkDirty?) then B.Landed(s.buf, s.user.flight, Shown(s.fc, c))
    else if s.user.Loading? && c.ReadPart? then B.LoadedPart(s.buf, s.user.load, c.keys)
    else s.buf
  }

  ghost function Next(s: State, l: Label): State
    requires Enabled(s, l)
  {
    match l
    case Top(b) => s.(buf := B.Next(s.buf, b))
    case Upload(id) => s.(fc := FC.Next(s.fc, FC.BeginWrite(s.buf.flights[id].img)), user := Uploading(id))
    case Load(id) =>
      s.(fc := FC.Next(s.fc, FC.BeginRead(PageKeys(s.buf.pg, s.buf.loads[id].page))), user := Loading(id))
    case Below(c) =>
      State(Above(s, c), FC.Next(s.fc, c), if EndsCall(c) then Nobody else s.user)
  }

  /** The label of the disk cache, and of the buffer, that a stack label stands for. */
  ghost function CacheLabel(s: State, l: Label): (c: seq<FC.Label>)
    requires Enabled(s, l)
  {
    match l
    case Top(b) => []
    case Upload(id) => [FC.BeginWrite(s.buf.flights[id].img)]
    case Load(id) => [FC.BeginRead(PageKeys(s.buf.pg, s.buf.loads[id].page))]
    case Below(c) => [c]
  }

  ghost function BufferLabel(s: State, l: Label): (b: seq<B.Label>)
    requires Enabled(s, l)
  {
    match l
    case Top(b) => [b]
    case Below(c) =>
      if s.user.Uploading? && (c.PutData? || c.MarkDirty?) then [B.Land(s.user.flight, Shown(s.fc, c))]
      else if s.user.Loading? && c.ReadPart? then [B.LoadPart(s.user.load, c.keys)]
      else []
    case _ => []
  }

  /** The hypotheses of the disk cache. */
  ghost predicate CacheDisciplined(s: State, l: Label)
    requires Enabled(s, l)
  {
    forall c | c in CacheLabel(s, l) :: FC.Disciplined(s.fc, c)
  }

  /** The hypotheses of both layers: one client operation at a time, and no overlapping flushes in either. */
  ghost predicate Disciplined(s: State, l: Label)
    requires Enabled(s, l)
  {
    && CacheDisciplined(s, l)
    && (forall b | b in BufferLabel(s, l) :: B.NoOverlap(s.buf, b) && B.Serial(s.buf, b))
  }

  /** The other way: a buffer that evicts nothing, with any number of clients and overlapping flushes. */
  ghost predicate Unevicting(s: State, l: Label)
    requires Enabled(s, l)
  {
    && CacheDisciplined(s, l)
    && (forall b | b in BufferLabel(s, l) :: B.NoEviction(s.buf, b))
  }

  // ----- Invariant -----

  /** The request that holds the lock is the disk cache's client. */
  ghost predicate UserOk(s: State) {
    match s.user
    case Nobody => s.fc.client.Idle?
    case Uploading(id) =>
      && id in s.buf.flights
      && s.fc.client.Writer?
      && s.fc.client.img == s.buf.flights[id].img
    case Loading(id) =>
      && id in s.buf.loads
      && s.fc.client.Reader?
      && s.fc.client.keys == PageKeys(s.buf.pg, s.buf.loads[id].page)
  }

  /** What both ways share: the disk cache is in order, and shows what the buffer takes for its inner store. */
  ghost predicate LowerInv(s: State) {
    && FCR.Inv(s.fc)
    && s.buf.inner == FC.View(s.fc)
    && UserOk(s)
  }

  ghost predicate Inv(s: State) { LowerInv(s) && BR.SerialInv(s.buf) }

  ghost predicate ManyInv(s: State) { LowerInv(s) && BR.Inv(s.buf) }

  /** The one device the stack shows. */
  ghost function Flat(s: State): seq<Byte>
    requires s.buf.Shape()
  {
    B.View(s.buf)
  }

  /** A step of the disk cache shows the buffer exactly the bytes its upload put. */
  lemma BelowShows(s: State, c: FC.Label)
    requires Enabled(s, Below(c)) && FCR.Inv(s.fc) && FC.Disciplined(s.fc, c) && UserOk(s) && s.buf.inner == FC.View(s.fc)
    ensures FC.Next(s.fc, c).Shape() && Above(s, c).inner == FC.View(FC.Next(s.fc, c))
  {
    var f, t := s.fc, FC.Next(s.fc, c);
    FCR.StepRefines(f, c);
    if c.PutData? {
      PutShows(f, t, c.page, c.keys);
    } else if c.MarkDirty? {
      MarkShows(f, t, c.page);
    } else if FCR.IsClientLabel(c) {
      assert FC.View(t) == FC.View(f);
    } else {
      if FCR.IsFetchLabel(c) {
        FCR.FetchStepKeepsInv(f, c);
      } else {
        FCR.FlushStepKeepsInv(f, c);
      }
      assert FC.View(t) == FC.View(f);
    }
  }

  lemma PutShows(f: FC.State, t: FC.State, p: nat, keys: set<nat>)
    requires FC.CanPut(f, p, keys) && t == FC.Put(f, p, keys)
    ensures FC.View(t) == Overlay(FC.View(f), Restrict(f.client.img, Shown(f, FC.PutData(p, keys))))
  {
  }

  lemma MarkShows(f: FC.State, t: FC.State, p: nat)
    requires FC.CanMark(f, p) && t == FC.Mark(f, p) && FCR.WriterOk(f)
    ensures FC.View(t) == Overlay(FC.View(f), Restrict(f.client.img, Shown(f, FC.MarkDirty(p))))
  {
  }

  lemma BelowUser(s: State, c: FC.Label)
    requires UserOk(s) && Enabled(s, Below(c))
    ensures UserOk(Next(s, Below(c)))
  {
  }

  /** Every step keeps the disk cache in order and in step with the buffer's inner store. */
  lemma LowerStep(s: State, l: Label)
    requires LowerInv(s) && Enabled(s, l) && CacheDisciplined(s, l)
    ensures LowerInv(Next(s, l))
  {
    hide FCR.Inv, FC.Disciplined;
    var t := Next(s, l);
    match l
    case Top(b) =>
      TopKeepsInner(s.buf, b);
    case Upload(id) =>
      var c := FC.BeginWrite(s.buf.flights[id].img);
      assert c in CacheLabel(s, l);
      FCR.StepRefines(s.fc, c);
      assert FC.View(t.fc) == FC.View(s.fc);
    case Load(id) =>
      var c := FC.BeginRead(PageKeys(s.buf.pg, s.buf.loads[id].page));
      assert c in CacheLabel(s, l);
      FCR.StepRefines(s.fc, c);
      assert FC.View(t.fc) == FC.View(s.fc);
    case Below(c) =>
      assert c in CacheLabel(s, l);
      FCR.StepRefines(s.fc, c);
      BelowShows(s, c);
      BelowUser(s, c);
  }

  /** A step of the buffer that does not touch the inner store ends no request that is using the disk cache. */
  lemma TopKeepsInner(s: B.State, b: B.Label)
    requires B.Enabled(s, b) && IsTop(b)
    ensures B.Next(s, b).inner == s.inner && B.Next(s, b).pg == s.pg
    ensures forall id | id in s.flights && !((b.Finish? || b.Fail?) && b.id == id) ::
              id in B.Next(s, b).flights && B.Next(s, b).flights[id] == s.flights[id]
    ensures forall id | id in s.loads && !((b.LoadInsert? || b.LoadDrop?) && b.id == id) ::
              id in B.Next(s, b).loads && B.Next(s, b).loads[id] == s.loads[id]
  {
  }

  /** A stack step is a step of the buffer, or leaves the buffer alone. */
  lemma BufferLabelEnabled(s: State, l: Label)
    requires LowerInv(s) && Enabled(s, l)
    ensures var b := BufferLabel(s, l);
      if b == [] then Next(s, l).buf == s.buf
      else |b| == 1 && B.Enabled(s.buf, b[0]) && Next(s, l).buf == B.Next(s.buf, b[0])
    ensures l.Top? && l.b.Apply? <==> BufferLabel(s, l) != [] && BufferLabel(s, l)[0].Apply?
    ensures l.Top? ==> BufferLabel(s, l) == [l.b]
  {
  }

  /** The chunk a step writes to the device, if any. */
  function Written(l: Label): Image { if l.Top? && l.b.Apply? then l.b.img else map[] }

  /** Only an applied chunk write changes the device, whatever happens, or fails, in the two layers. */
  lemma StepRefines(s: State, l: Label)
    requires Inv(s) && Enabled(s, l) && Disciplined(s, l)
    ensures Inv(Next(s, l)) && Flat(Next(s, l)) == Overlay(Flat(s), Written(l))
  {
    hide LowerInv, BR.SerialInv, Enabled, Next, B.Enabled, B.Next, B.Serial, B.NoOverlap;
    LowerStep(s, l);
    BufferLabelEnabled(s, l);
    SerialShape(s.buf);
    FCR.NothingWritten(Flat(s));
    var b := BufferLabel(s, l);
    if b != [] {
      assert b[0] in b;
      BR.SerialStepRefines(s.buf, b[0]);
    }
  }

  lemma SerialShape(s: B.State)
    requires BR.SerialInv(s)
    ensures s.Shape()
  {
  }

  /** The same with many clients and no eviction in the buffer. */
  lemma ManyStepRefines(s: State, l: Label)
    requires ManyInv(s) && Enabled(s, l) && Unevicting(s, l)
    ensures ManyInv(Next(s, l)) && Flat(Next(s, l)) == Overlay(Flat(s), Written(l))
  {
    hide LowerInv, Enabled, Next, B.Enabled, B.Next, BR.LoadsOk, BR.FlightsResident;
    LowerStep(s, l);
    BufferLabelEnabled(s, l);
    FCR.NothingWritten(Flat(s));
    var b := BufferLabel(s, l);
    if b != [] {
      assert b[0] in b;
      BR.StepRefines(s.buf, b[0]);
    }
  }

  // ----- Runs -----

  datatype Run = Start(s: State) | Then(prev: Run, l: Label) {

    ghost predicate Valid()
      decreases this, 0
    {
      match this
      case Start(s) => true
      case Then(r, l) => r.Valid() && Enabled(r.End(), l)
    }

    ghost function End(): State
      requires Valid()
      decreases this, 1
    {
      match this
      case Start(s) => s
      case Then(r, l) => Next(r.End(), l)
    }

    ghost function First(): State {
      match this
      case Start(s) => s
      case Then(r, l) => r.First()
    }

    /** The flat device: the first state's content with every chunk write applied, in order. */
    ghost function Replayed(): seq<Byte>
      requires First().buf.Shape()
    {
      match this
      case Start(s) => Flat(s)
      case Then(r, l) => Overlay(r.Replayed(), Written(l))
    }

    /** Every step keeps the hypotheses. */
    ghost predicate Serial()
      requires Valid()
    {
      this.Then? ==> prev.Serial() && Disciplined(prev.End(), l)
    }

    ghost predicate Many()
      requires Valid()
    {
      this.Then? ==> prev.Many() && Unevicting(prev.End(), l)
    }

    /** The run of the buffer, and of the disk cache, inside a run of the stack. */
    ghost function OfBuffer(): BRuns.Run
      requires Valid()
    {
      match this
      case Start(s) => BRuns.Start(s.buf)
      case Then(r, l) =>
        var b := BufferLabel(r.End(), l);
        if b == [] then r.OfBuffer() else BRuns.Then(r.OfBuffer(), b[0])
    }

    ghost function OfCache(): FCRuns.Run
      requires Valid()
    {
      match this
      case Start(s) => FCRuns.Start(s.fc)
      case Then(r, l) =>
        var c := CacheLabel(r.End(), l);
        if c == [] then r.OfCache() else FCRuns.Then(r.OfCache(), c[0])
    }

    /** The uploads of each layer in flight that were begun during the run. */
    ghost function BufferBegun(): set<nat> {
      match this
      case Start(s) => {}
      case Then(r, l) => if l.Top? then BRuns.BegunAfter(r.BufferBegun(), l.b) else r.BufferBegun()
    }

    ghost function CacheBegun(): set<nat> {
      match this
      case Start(s) => {}
      case Then(r, l) => if l.Below? then FCRuns.BegunAfter(r.CacheBegun(), l.c) else r.CacheBegun()
    }

    /** The buffer pages, and the disk-cache pages, of which an upload was begun and finished during the run. */
    ghost function BufferFlushed(): set<nat>
      requires Valid()
    {
      match this
      case Start(s) => {}
      case Then(r, l) =>
        r.BufferFlushed() +
        if l.Top? && l.b.Finish? && l.b.id in r.BufferBegun() then {r.End().buf.flights[l.b.id].page} else {}
    }

    ghost function CacheFlushed(): set<nat>
      requires Valid()
    {
      match this
      case Start(s) => {}
      case Then(r, l) =>
        r.CacheFlushed() +
        if l.Below? && l.c.Finish? && l.c.id in r.CacheBegun() then {r.End().fc.flights[l.c.id].page} else {}
    }

    /** No client write, and no upload into the disk cache. */
    ghost predicate NoApply() { this.Then? ==> prev.NoApply() && !(l.Top? && l.b.Apply?) }

    ghost predicate NoUpload() { this.Then? ==> prev.NoUpload() && !l.Upload? }
  }

  /** Every run of the stack shows exactly the chunk writes, in order, over one flat array. */
  lemma {:induction false} RunRefinesFlat(r: Run)
    requires r.Valid() && r.Serial() && Inv(r.First())
    ensures Inv(r.End()) && Flat(r.End()) == r.Replayed()
  {
    hide Inv, Enabled, Next, Disciplined;
    ShapeOf(r.First());
    if r.Then? {
      RunRefinesFlat(r.prev);
      StepRefines(r.prev.End(), r.l);
    }
  }

  /** So does every run with many clients and overlapping buffer flushes, if the buffer evicts nothing. */
  lemma {:induction false} ManyRunRefinesFlat(r: Run)
    requires r.Valid() && r.Many() && ManyInv(r.First())
    ensures ManyInv(r.End()) && Flat(r.End()) == r.Replayed()
  {
    hide Enabled, Next, Unevicting, LowerInv, BR.LoadsOk, BR.FlightsResident;
    if r.Then? {
      ManyRunRefinesFlat(r.prev);
      ManyStepRefines(r.prev.End(), r.l);
    }
  }

  lemma ShapeOf(s: State)
    requires Inv(s)
    ensures s.buf.Shape()
  {
  }

  lemma {:induction false} BufferRun(r: Run)
    requires r.Valid() && r.Serial() && Inv(r.First())
    ensures r.OfBuffer().Valid() && r.OfBuffer().End() == r.End().buf && r.OfBuffer().First() == r.First().buf
    ensures r.OfBuffer().All(B.NoOverlap) && r.OfBuffer().All(B.Serial)
    ensures r.NoApply() ==> r.OfBuffer().All(BRuns.NotAWrite)
    ensures r.OfBuffer().Begun() == r.BufferBegun() && r.OfBuffer().Flushed() == r.BufferFlushed()
  {
    hide LowerInv, BR.SerialInv, Enabled, Next, B.Enabled, B.Next;
    if r.Then? {
      BufferRun(r.prev);
      RunRefinesFlat(r.prev);
      BufferLabelEnabled(r.prev.End(), r.l);
      var b := BufferLabel(r.prev.End(), r.l);
      assert b != [] ==> b[0] in b;
    }
  }

  lemma {:induction false} CacheRun(r: Run)
    requires r.Valid() && r.Serial()
    ensures r.OfCache().Valid() && r.OfCache().End() == r.End().fc && r.OfCache().First() == r.First().fc
    ensures r.OfCache().All(FC.Disciplined)
    ensures r.NoUpload() && !r.First().fc.client.Writer? ==> !r.End().fc.client.Writer? && r.OfCache().All(FCRuns.NotAWrite)
    ensures r.OfCache().Begun() == r.CacheBegun() && r.OfCache().Flushed() == r.CacheFlushed()
  {
    hide FC.Enabled, FC.Next, FC.Disciplined;
    if r.Then? {
      CacheRun(r.prev);
      CacheStep(r.prev.End(), r.l);
      var c := CacheLabel(r.prev.End(), r.l);
      assert c != [] ==> c[0] in c;
    }
  }

  lemma CacheStep(s: State, l: Label)
    requires Enabled(s, l)
    ensures var c := CacheLabel(s, l);
      if c == [] then Next(s, l).fc == s.fc
      else |c| == 1 && FC.Enabled(s.fc, c[0]) && Next(s, l).fc == FC.Next(s.fc, c[0])
    ensures !l.Upload? && !s.fc.client.Writer? ==> !Next(s, l).fc.client.Writer?
  {
  }

  /** A buffer with nothing dirty has nothing in flight, and no upload of it is under way. */
  lemma CleanBuffer(s: State)
    requires Inv(s) && BRuns.DirtyPages(s.buf) == {}
    ensures s.buf.flights == map[] && !s.fc.client.Writer?
  {
    BRuns.FlightsDirty(s.buf);
    assert forall id | id in s.buf.flights :: s.buf.flights[id].page in BRuns.DirtyPages(s.buf);
    assert s.buf.flights.Keys == {};
  }

  /** While nothing is written to a clean buffer, nothing is uploaded from it. */
  lemma {:induction false} CleanStays(r: Run)
    requires r.Valid() && r.Serial() && Inv(r.First()) && r.NoApply() && BRuns.DirtyPages(r.First().buf) == {}
    ensures r.NoUpload()
  {
    hide Inv, Enabled, Next, Disciplined, BRuns.DirtyPages;
    if r.Then? {
      CleanStays(r.prev);
      RunRefinesFlat(r.prev);
      BufferRun(r.prev);
      SerialOf(r.First());
      BRuns.FlushProgress(r.prev.OfBuffer());
      CleanBuffer(r.prev.End());
      UploadsFlight(r.prev.End(), r.l);
    }
  }

  lemma SerialOf(s: State)
    requires Inv(s)
    ensures BR.SerialInv(s.buf)
  {
  }

  lemma UploadsFlight(s: State, l: Label)
    requires Enabled(s, l) && s.buf.flights == map[]
    ensures !l.Upload?
  {
  }

  /**
    A top-level flush: the buffer uploads every page that was dirty in memory, then the disk cache uploads every page
    that is dirty on disk, with no client write meanwhile.  The blob is then the device, whatever uploads of either layer
    were in flight before.
  */
  lemma FlushReachesBlob(buffer: Run, cache: Run)
    requires buffer.Valid() && buffer.Serial() && Inv(buffer.First()) && buffer.NoApply()
    requires BRuns.DirtyPages(buffer.First().buf) <= buffer.BufferFlushed()
    requires cache.Valid() && cache.Serial() && cache.First() == buffer.End() && cache.NoApply()
    requires cache.First().fc.dirty <= cache.CacheFlushed()
    ensures cache.End().fc.blob == Flat(buffer.First())
  {
    hide Enabled, Next, Disciplined, BRuns.DirtyPages;
    RunRefinesFlat(buffer);
    BufferRun(buffer);
    BRuns.FlushDrains(buffer.OfBuffer());
    CleanBuffer(buffer.End());
    CleanStays(cache);
    CacheRun(cache);
    FCRuns.FlushDrains(cache.OfCache());
  }
}
