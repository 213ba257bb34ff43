/**
  The byte budget over every run of many processes: what each one keeps on disk, what it has listed for eviction, what
  it was charged for, and what the shared ledger records for it.
*/
module BudgetRuns {
  import opened Common
  import PM = PageMap
  import opened Metadata
  import opened Budget
  import C = FileCacheBackend

  // ----- Summed page lengths -----

  /** The summed lengths of the pages of `pages` below `n`. */
  function Bytes(pages: set<nat>, dev: nat, ps: nat, n: nat): nat {
    if n == 0 then 0 else Bytes(pages, dev, ps, n - 1) + if n - 1 in pages then PM.PageLen(dev, ps, n - 1) else 0
  }

  lemma {:induction false} BytesAdd(pages: set<nat>, dev: nat, ps: nat, n: nat, p: nat)
    requires p !in pages
    ensures Bytes(pages + {p}, dev, ps, n) == Bytes(pages, dev, ps, n) + if p < n then PM.PageLen(dev, ps, p) else 0
  {
    hide PM.PageLen;
    if n > 0 { BytesAdd(pages, dev, ps, n - 1, p); }
  }

  lemma BytesDrop(pages: set<nat>, dev: nat, ps: nat, n: nat, p: nat)
    requires p in pages
    ensures Bytes(pages, dev, ps, n) == Bytes(pages - {p}, dev, ps, n) + if p < n then PM.PageLen(dev, ps, p) else 0
  {
  }

  /** Present pages never hold more than the device, so sums of page lengths fit where device sizes fit. */
  lemma {:induction false} BytesWithin(pages: set<nat>, dev: nat, ps: nat, n: nat)
    ensures Bytes(pages, dev, ps, n) <= if n * ps <= dev then n * ps else dev
  {
    if n > 0 {
      BytesWithin(pages, dev, ps, n - 1);
      assert n * ps == (n - 1) * ps + ps;
    }
  }

  lemma {:induction false} BytesSplit(pages: set<nat>, part: set<nat>, dev: nat, ps: nat, n: nat)
    requires part <= pages
    ensures Bytes(pages, dev, ps, n) == Bytes(part, dev, ps, n) + Bytes(pages - part, dev, ps, n)
  {
    hide PM.PageLen;
    if n > 0 { BytesSplit(pages, part, dev, ps, n - 1); }
  }

  // ----- Owners over a shared ledger -----

  /**
    What a process keeps: its present pages, those the recency index lists, those it was charged for, and those that
    take up disk.  A present page that takes up none is a hole.  `uncharged` is the summed length of pages it released
    without having been charged for them, `clipped` what the ledger could not subtract.
  */
  datatype Holding = Holding(
    dev: nat,
    ps: nat,
    present: set<nat>,
    listed: set<nat>,
    charged: set<nat>,
    onDisk: set<nat>,
    uncharged: nat,
    clipped: nat)

  function SumOf(h: Holding, pages: set<nat>): nat
    requires h.ps > 0
  {
    Bytes(pages, h.dev, h.ps, C.NumPages(h.dev, h.ps))
  }

  /** A page's length in an owner's geometry. */
  function LenOf(h: Holding, page: nat): nat { PM.PageLen(h.dev, h.ps, page) }

  /** The ledger, the processes alive, and what each open owner holds, by owner and pid. */
  datatype Shared = Shared(entries: seq<Entry>, alive: set<nat>, holdings: map<(nat, nat), Holding>)

  /**
    `Fetch` stores a page read from the blob, as a hole or not; `Write` stores a client's bytes; `Hit` is a read of a
    present page, which refreshes its recency; `Evict` drops a listed page.  `Open` recovers `holes` and `full` pages.
  */
  datatype Event =
    | Open(owner: nat, pid: nat, dev: nat, ps: nat, holes: set<nat>, full: set<nat>)
    | Fetch(owner: nat, pid: nat, page: nat, hole: bool)
    | Write(owner: nat, pid: nat, page: nat)
    | Hit(owner: nat, pid: nat, page: nat)
    | Evict(owner: nat, pid: nat, page: nat)
    | Spawn(pid: nat)
    | Die(pid: nat)

  function Opened(dev: nat, ps: nat, holes: set<nat>, full: set<nat>): Holding {
    Holding(dev, ps, holes + full, full, full, full, 0, 0)
  }

  predicate OnDevice(h: Holding, page: nat) { h.ps > 0 && page < C.NumPages(h.dev, h.ps) }

  /** Pids are not reused: a dead process leaves no holding behind it. */
  ghost predicate CanDo(s: Shared, e: Event) {
    match e
    case Open(o, p, dev, ps, holes, full) => p in s.alive && ps > 0 && IsU64(dev) && (o, p) !in s.holdings && holes !! full
    case Fetch(o, p, q, _) => (o, p) in s.holdings && OnDevice(s.holdings[(o, p)], q) && q !in s.holdings[(o, p)].present
    case Write(o, p, q) => (o, p) in s.holdings && OnDevice(s.holdings[(o, p)], q)
    case Hit(o, p, q) => (o, p) in s.holdings && OnDevice(s.holdings[(o, p)], q) && q in s.holdings[(o, p)].present
    case Evict(o, p, q) => (o, p) in s.holdings && OnDevice(s.holdings[(o, p)], q) && q in s.holdings[(o, p)].listed
    case Spawn(p) => p !in s.alive
    case Die(p) => p in s.alive
  }

  function Dropped(hs: map<(nat, nat), Holding>, pid: nat): map<(nat, nat), Holding> {
    map k | k in hs && k.1 != pid :: hs[k]
  }

  /** A page not listed yet becomes listed and charged. */
  function Charge(h: Holding, q: nat): Holding {
    h.(present := h.present + {q}, listed := h.listed + {q}, charged := h.charged + {q}, onDisk := h.onDisk + {q})
  }

  /** What the ledger cannot subtract. */
  function Clip(balance: nat, len: nat): nat { if len <= balance then 0 else len - balance }

  function Evicted(h: Holding, q: nat, balance: nat): Holding {
    h.(present := h.present - {q}, listed := h.listed - {q}, charged := h.charged - {q}, onDisk := h.onDisk - {q},
       uncharged := h.uncharged + (if q in h.charged then 0 else LenOf(h, q)),
       clipped := h.clipped + Clip(balance, LenOf(h, q)))
  }

  /** The holding after an event of its owner, and the balance the ledger is told, if it is told anything. */
  function Next(h: Holding, balance: nat, e: Event): (Holding, Option<nat>)
    requires e.Fetch? || e.Write? || e.Hit? || e.Evict?
  {
    match e
    case Fetch(_, _, q, hole) =>
      if hole then (h.(present := h.present + {q}), None) else (Charge(h, q), Some(SatAdd(balance, LenOf(h, q))))
    case Write(_, _, q) =>
      if q in h.listed then (h.(onDisk := h.onDisk + {q}), None) else (Charge(h, q), Some(SatAdd(balance, LenOf(h, q))))
    case Hit(_, _, q) => (h.(listed := h.listed + {q}), None)
    case Evict(_, _, q) => (Evicted(h, q, balance), Some(SatSub(balance, LenOf(h, q))))
  }

  function Posted(s: Shared, o: nat, p: nat, h: Holding, told: Option<nat>): Shared {
    s.(entries := if told.Some? then Transacted(s.entries, o, p, s.alive, told.value) else s.entries,
       holdings := s.holdings[(o, p) := h])
  }

  ghost function Do(s: Shared, e: Event): Shared
    requires CanDo(s, e)
  {
    match e
    case Open(o, p, dev, ps, holes, full) =>
      var h := Opened(dev, ps, holes, full);
      Posted(s, o, p, h, Some(SumOf(h, full)))
    case Spawn(p) => s.(alive := s.alive + {p})
    case Die(p) => s.(alive := s.alive - {p}, holdings := Dropped(s.holdings, p))
    case _ =>
      var kept := Next(s.holdings[(e.owner, e.pid)], Balance(s.entries, e.owner, e.pid), e);
      Posted(s, e.owner, e.pid, kept.0, kept.1)
  }

  // ----- Conservation -----

  predicate Nested(h: Holding) {
    && h.ps > 0 && IsU64(h.dev)
    && h.charged <= h.listed <= h.present
    && h.charged <= h.onDisk <= h.present
  }

  /** The books: what is recorded and what was released uncharged make up what was charged and what was clipped. */
  predicate Balanced(h: Holding, balance: nat)
    requires h.ps > 0
  {
    && balance + h.uncharged == SumOf(h, h.charged) + h.clipped
    && h.clipped <= h.uncharged
  }

  ghost predicate HoldingOk(s: Shared, o: nat, p: nat) {
    (o, p) in s.holdings ==>
      var h := s.holdings[(o, p)];
      p in s.alive && Nested(h) && Balanced(h, Balance(s.entries, o, p))
  }

  ghost predicate Conserved(s: Shared) { forall o: nat, p: nat :: HoldingOk(s, o, p) }

  /** Charging a page moves the sum by its length, and never saturates. */
  lemma ChargeMoves(h: Holding, q: nat, balance: nat)
    requires Nested(h) && OnDevice(h, q) && q !in h.charged && Balanced(h, balance)
    ensures Balanced(Charge(h, q), SatAdd(balance, LenOf(h, q)))
  {
    hide PM.PageLen, C.NumPages;
    var n := C.NumPages(h.dev, h.ps);
    BytesWithin(h.charged + {q}, h.dev, h.ps, n);
    BytesAdd(h.charged, h.dev, h.ps, n, q);
  }

  /** An eviction gives back what was charged, or what was not, or what is left to give. */
  lemma EvictMoves(h: Holding, q: nat, balance: nat)
    requires Nested(h) && OnDevice(h, q) && Balanced(h, balance)
    ensures Balanced(Evicted(h, q, balance), SatSub(balance, LenOf(h, q)))
  {
    hide PM.PageLen, C.NumPages;
    var n := C.NumPages(h.dev, h.ps);
    if q in h.charged {
      BytesDrop(h.charged, h.dev, h.ps, n, q);
    } else {
      assert h.charged - {q} == h.charged;
    }
  }

  lemma OpenBalances(dev: nat, ps: nat, holes: set<nat>, full: set<nat>)
    requires ps > 0 && IsU64(dev)
    ensures var h := Opened(dev, ps, holes, full); Nested(h) && Balanced(h, SumOf(h, full))
  {
  }

  /** An owner's event keeps its books, with the balance it tells the ledger or the old one. */
  lemma NextBalances(h: Holding, balance: nat, e: Event)
    requires (e.Fetch? || e.Write? || e.Hit? || e.Evict?) && Nested(h) && OnDevice(h, e.page) && Balanced(h, balance)
    requires e.Fetch? ==> e.page !in h.present
    requires e.Hit? ==> e.page in h.present
    ensures var kept := Next(h, balance, e);
      Nested(kept.0) && Balanced(kept.0, if kept.1.Some? then kept.1.value else balance)
  {
    hide PM.PageLen, C.NumPages, Bytes;
    match e {
      case Fetch(_, _, q, hole) => if !hole { ChargeMoves(h, q, balance); }
      case Write(_, _, q) => if q !in h.listed { ChargeMoves(h, q, balance); }
      case Hit(_, _, q) =>
      case Evict(_, _, q) => EvictMoves(h, q, balance);
    }
  }

  /** A transaction that leaves an owner's holding alone leaves its balance alone. */
  lemma PostedOthers(s: Shared, i: nat, j: nat, h: Holding, told: Option<nat>, o: nat, p: nat)
    requires HoldingOk(s, o, p) && (o, p) != (i, j)
    ensures HoldingOk(Posted(s, i, j, h, told), o, p)
  {
    hide Balanced, Nested, Transacted;
    if told.Some? { TransactedBalance(s.entries, i, j, s.alive, told.value, o, p); }
  }

  lemma PostedOwn(s: Shared, i: nat, j: nat, h: Holding, told: Option<nat>)
    requires j in s.alive && Nested(h) && Balanced(h, if told.Some? then told.value else Balance(s.entries, i, j))
    ensures HoldingOk(Posted(s, i, j, h, told), i, j)
  {
    hide Balanced, Nested, Transacted;
    if told.Some? { TransactedBalance(s.entries, i, j, s.alive, told.value, i, j); }
  }

  lemma OpenConserves(s: Shared, e: Event, o: nat, p: nat)
    requires CanDo(s, e) && e.Open? && HoldingOk(s, o, p)
    ensures HoldingOk(Do(s, e), o, p)
  {
    hide HoldingOk, Posted, Opened, SumOf, Nested, Balanced;
    var h := Opened(e.dev, e.ps, e.holes, e.full);
    OpenBalances(e.dev, e.ps, e.holes, e.full);
    if (o, p) == (e.owner, e.pid) {
      PostedOwn(s, o, p, h, Some(SumOf(h, e.full)));
    } else {
      PostedOthers(s, e.owner, e.pid, h, Some(SumOf(h, e.full)), o, p);
    }
  }

  lemma NextConserves(s: Shared, e: Event, o: nat, p: nat)
    requires CanDo(s, e) && (e.Fetch? || e.Write? || e.Hit? || e.Evict?)
    requires HoldingOk(s, o, p) && HoldingOk(s, e.owner, e.pid)
    ensures HoldingOk(Do(s, e), o, p)
  {
    hide Posted, Next, OnDevice, SumOf, Nested, Balanced, Balance;
    var h, balance := s.holdings[(e.owner, e.pid)], Balance(s.entries, e.owner, e.pid);
    var kept := Next(h, balance, e);
    NextBalances(h, balance, e);
    if (o, p) == (e.owner, e.pid) {
      PostedOwn(s, o, p, kept.0, kept.1);
    } else {
      PostedOthers(s, e.owner, e.pid, kept.0, kept.1, o, p);
    }
  }

  lemma LifeKeeps(s: Shared, e: Event, o: nat, p: nat)
    requires CanDo(s, e) && (e.Spawn? || e.Die?) && HoldingOk(s, o, p)
    ensures HoldingOk(Do(s, e), o, p)
  {
    hide Nested, Balanced, Balance;
  }

  lemma EventConserves(s: Shared, e: Event)
    requires Conserved(s) && CanDo(s, e)
    ensures Conserved(Do(s, e))
  {
    hide HoldingOk, Do, CanDo;
    forall o: nat, p: nat ensures HoldingOk(Do(s, e), o, p) {
      assert HoldingOk(s, o, p);
      if e.Spawn? || e.Die? {
        LifeKeeps(s, e, o, p);
      } else if e.Open? {
        OpenConserves(s, e, o, p);
      } else {
        assert HoldingOk(s, e.owner, e.pid);
        NextConserves(s, e, o, p);
      }
    }
  }

  // ----- Runs -----

  /** A run of many processes, newest event last. */
  datatype History = Begin(alive: set<nat>) | Then(before: History, event: Event)

  ghost predicate Valid(h: History)
    decreases h, 0
  {
    h.Then? ==> Valid(h.before) && CanDo(End(h.before), h.event)
  }

  ghost function End(h: History): Shared
    requires Valid(h)
    decreases h, 1
  {
    match h
    case Begin(alive) => Shared([], alive, map[])
    case Then(b, e) => Do(End(b), e)
  }

  /** In every run, whoever comes, goes or dies in between, each owner's books balance. */
  lemma {:induction false} HistoryConserves(h: History)
    requires Valid(h)
    ensures Conserved(End(h))
  {
    hide HoldingOk, Do, CanDo;
    if h.Then? {
      HistoryConserves(h.before);
      EventConserves(End(h.before), h.event);
    } else {
      forall o: nat, p: nat ensures HoldingOk(End(h), o, p) { NoHolding(End(h), o, p); }
    }
  }

  /** An event that tells the ledger a balance. */
  ghost predicate Tells(s: Shared, e: Event)
    requires CanDo(s, e)
  {
    e.Open? || (!e.Spawn? && !e.Die? && Next(s.holdings[(e.owner, e.pid)], Balance(s.entries, e.owner, e.pid), e).1.Some?)
  }

  /** Since `d`, process `p` has not been started. */
  ghost predicate DeadSince(h: History, d: History, p: nat) {
    h == d || (h.Then? && h.event != Spawn(p) && DeadSince(h.before, d, p))
  }

  lemma {:induction false} StaysDead(h: History, b: History, p: nat)
    requires Valid(h) && DeadSince(h, Then(b, Die(p)), p)
    ensures p !in End(h).alive
  {
    if h != Then(b, Die(p)) { StaysDead(h.before, b, p); }
  }

  /** Once a process has died, the next transaction of anybody else reclaims all its balances. */
  lemma DeadIsReclaimed(b: History, h: History, p: nat, e: Event, o: nat)
    requires Valid(Then(h, e)) && DeadSince(h, Then(b, Die(p)), p) && Tells(End(h), e)
    ensures Balance(End(Then(h, e)).entries, o, p) == 0
  {
    hide Transacted, Balance, Balanced, Nested, OnDevice;
    StaysDead(h, b, p);
    HistoryConserves(h);
    var s := End(h);
    assert HoldingOk(s, e.owner, e.pid);
    TransactedBalance(s.entries, e.owner, e.pid, s.alive, Told(s, e), o, p);
  }

  /** The balance that is told. */
  ghost function Told(s: Shared, e: Event): nat
    requires CanDo(s, e) && Tells(s, e)
  {
    if e.Open? then SumOf(Opened(e.dev, e.ps, e.holes, e.full), e.full)
    else Next(s.holdings[(e.owner, e.pid)], Balance(s.entries, e.owner, e.pid), e).1.value
  }

  lemma NoHolding(s: Shared, o: nat, p: nat)
    requires s.holdings == map[]
    ensures HoldingOk(s, o, p)
  {
  }

  /**
    In every run the ledger never records more than an owner keeps on disk.  It records less by exactly the summed
    length of the pages released uncharged, less what was clipped, and of the pages kept uncharged.
  */
  lemma ShortfallExactly(h: History, o: nat, p: nat)
    requires Valid(h) && (o, p) in End(h).holdings
    ensures var g, balance := End(h).holdings[(o, p)], Balance(End(h).entries, o, p);
      && g.ps > 0
      && balance <= SumOf(g, g.onDisk)
      && SumOf(g, g.onDisk) - balance == (g.uncharged - g.clipped) + SumOf(g, g.onDisk - g.charged)
  {
    hide CanDo, Do, Bytes, C.NumPages;
    HistoryConserves(h);
    var g := End(h).holdings[(o, p)];
    assert HoldingOk(End(h), o, p);
    BytesSplit(g.onDisk, g.charged, g.dev, g.ps, C.NumPages(g.dev, g.ps));
  }

  /** No read of a hole: every hit is on a page that takes up disk. */
  ghost predicate HolesUnread(h: History)
    requires Valid(h)
  {
    h.Then? ==>
      && HolesUnread(h.before)
      && (h.event.Hit? ==> h.event.page in End(h.before).holdings[(h.event.owner, h.event.pid)].onDisk)
  }

  predicate Plain(g: Holding) { g.listed == g.charged == g.onDisk && g.uncharged == 0 }

  lemma PlainStays(s: Shared, e: Event, o: nat, p: nat)
    requires CanDo(s, e) && ((o, p) in s.holdings ==> Plain(s.holdings[(o, p)]))
    requires e.Hit? ==> e.page in s.holdings[(e.owner, e.pid)].onDisk
    ensures (o, p) in Do(s, e).holdings ==> Plain(Do(s, e).holdings[(o, p)])
  {
    hide Balance, Transacted, SumOf, OnDevice, LenOf;
  }

  lemma {:induction false} UnreadIsPlain(h: History, o: nat, p: nat)
    requires Valid(h) && HolesUnread(h)
    ensures (o, p) in End(h).holdings ==> Plain(End(h).holdings[(o, p)])
  {
    hide CanDo, Do, Plain;
    if h.Then? {
      UnreadIsPlain(h.before, o, p);
      PlainStays(End(h.before), h.event, o, p);
    }
  }

  /** While no hole is read, the ledger records exactly what each owner keeps on disk. */
  lemma UnreadHolesAreExact(h: History, o: nat, p: nat)
    requires Valid(h) && HolesUnread(h) && (o, p) in End(h).holdings
    ensures var g := End(h).holdings[(o, p)]; g.ps > 0 && Balance(End(h).entries, o, p) == SumOf(g, g.onDisk)
  {
    hide CanDo, Do, Bytes, C.NumPages;
    HistoryConserves(h);
    UnreadIsPlain(h, o, p);
    assert HoldingOk(End(h), o, p);
  }

  // ----- Runs that go wrong -----

  function JustOpen(): Holding { Holding(8192, 4096, {}, {}, {}, {}, 0, 0) }

  function OneWritten(): Holding { Holding(8192, 4096, {0}, {0}, {0}, {0}, 0, 0) }

  function OneAndHole(): Holding { Holding(8192, 4096, {0, 1}, {0}, {0}, {0}, 0, 0) }

  lemma OpenOne()
    ensures var h := Then(Begin({1}), Open(1, 1, 8192, 4096, {}, {}));
      Valid(h) && End(h) == Shared([Entry(1, 1, 0)], {1}, map[(1, 1) := JustOpen()])
  {
    assert Opened(8192, 4096, {}, {}) == JustOpen();
  }

  lemma WriteOne(h: History)
    requires Valid(h) && End(h) == Shared([Entry(1, 1, 0)], {1}, map[(1, 1) := JustOpen()])
    ensures var g := Then(h, Write(1, 1, 0));
      Valid(g) && End(g) == Shared([Entry(1, 1, 4096)], {1}, map[(1, 1) := OneWritten()])
  {
    assert Charge(JustOpen(), 0) == OneWritten();
  }

  lemma PunchOne(h: History)
    requires Valid(h) && End(h) == Shared([Entry(1, 1, 4096)], {1}, map[(1, 1) := OneWritten()])
    ensures var g := Then(h, Fetch(1, 1, 1, true));
      Valid(g) && End(g) == Shared([Entry(1, 1, 4096)], {1}, map[(1, 1) := OneAndHole()])
  {
    assert OneWritten().(present := OneWritten().present + {1}) == OneAndHole();
  }

  /** One process: page 0 was written, page 1 was fetched and is a hole. */
  function OneAndAHole(): History { Then(Then(Then(Begin({1}), Open(1, 1, 8192, 4096, {}, {})), Write(1, 1, 0)), Fetch(1, 1, 1, true)) }

  lemma OneAndAHoleRun()
    ensures Valid(OneAndAHole())
    ensures End(OneAndAHole()) == Shared([Entry(1, 1, 4096)], {1}, map[(1, 1) := OneAndHole()])
  {
    hide CanDo, Do;
    OpenOne();
    WriteOne(Then(Begin({1}), Open(1, 1, 8192, 4096, {}, {})));
    PunchOne(Then(Then(Begin({1}), Open(1, 1, 8192, 4096, {}, {})), Write(1, 1, 0)));
  }

  /** A hole that a read has put into the recency index is evicted, and releases bytes that page 0 was charged for. */
  lemma ReadHoleIsReleased()
    ensures var h := Then(Then(OneAndAHole(), Hit(1, 1, 1)), Evict(1, 1, 1));
      && Valid(h) && (1, 1) in End(h).holdings
      && var g := End(h).holdings[(1, 1)];
      g.onDisk == {0} && g.ps > 0 && SumOf(g, g.onDisk) == 4096 && Balance(End(h).entries, 1, 1) == 0
  {
    OneAndAHoleRun();
  }

  /** A hole that a read has put into the recency index and that is then written takes up a page nobody is charged for. */
  lemma ReadHoleIsWrittenUncharged()
    ensures var h := Then(Then(OneAndAHole(), Hit(1, 1, 1)), Write(1, 1, 1));
      && Valid(h) && (1, 1) in End(h).holdings
      && var g := End(h).holdings[(1, 1)];
      g.onDisk == {0, 1} && g.ps > 0 && SumOf(g, g.onDisk) == 8192 && Balance(End(h).entries, 1, 1) == 4096
  {
    OneAndAHoleRun();
  }
}
