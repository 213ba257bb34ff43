/**
  The local-disk cache under a byte budget, in place: each operation is one step of `BudgetRuns` for its page, followed
  by the evictions that bring the shared total back under the limit.
*/
module BudgetedCache {
  import opened Common
  import opened Store
  import opened Device
  import opened Metadata
  import PM = PageMap
  import opened Budget
  import opened BudgetRuns
  import L = Lru
  import C = FileCacheBackend
  import MF = MetaFile

  /** What became of one attempt to evict a page. */
  datatype Eviction = Nothing | PunchFailed | Dropped(page: nat, len: nat)

  /** `h` is `g` after pages were evicted, the ones not charged counted as such. */
  ghost predicate Trimmed(g: Holding, h: Holding)
    requires g.ps > 0
  {
    var out := g.present - h.present;
    && h.dev == g.dev && h.ps == g.ps
    && h.present <= g.present && out <= g.listed
    && h.listed == g.listed - out && h.charged == g.charged - out && h.onDisk == g.onDisk - out
    && h.uncharged == g.uncharged + SumOf(g, out - g.charged)
    && g.clipped <= h.clipped
  }

  /** The bytes that left the cache. */
  ghost function Given(g: Holding, h: Holding): nat
    requires g.ps > 0
  {
    SumOf(g, g.present - h.present)
  }

  /** How many pages left the cache. */
  ghost function Gone(g: Holding, h: Holding): nat { |g.present - h.present| }

  /** Each eviction took one punch that succeeded, and a pass that failed did so at the next punch. */
  ghost predicate Punched(g: Holding, h: Holding, punches: seq<bool>, failed: bool) {
    && (forall j | 0 <= j < Gone(g, h) && j < |punches| :: punches[j])
    && (failed ==> Gone(g, h) < |punches| && !punches[Gone(g, h)])
  }

  lemma TrimmedNone(g: Holding)
    requires g.ps > 0
    ensures Trimmed(g, g) && Given(g, g) == 0
  {
    assert g.present - g.present == {} && {} - g.charged == {};
    BytesNone(g.dev, g.ps, C.NumPages(g.dev, g.ps));
  }

  /** One more eviction. */
  lemma TrimmedMore(g: Holding, h: Holding, q: nat, balance: nat)
    requires g.ps > 0 && Trimmed(g, h) && q in h.listed && h.listed <= h.present && OnDevice(g, q)
    ensures Trimmed(g, Evicted(h, q, balance)) && Given(g, Evicted(h, q, balance)) == Given(g, h) + LenOf(g, q)
  {
    hide Bytes, C.NumPages, PM.PageLen;
    var n := C.NumPages(g.dev, g.ps);
    var out := g.present - h.present;
    var t := Evicted(h, q, balance);
    assert g.present - t.present == out + {q};
    BytesAdd(out, g.dev, g.ps, n, q);
    if q in g.charged {
      assert out + {q} - g.charged == out - g.charged;
    } else {
      assert out + {q} - g.charged == (out - g.charged) + {q};
      BytesAdd(out - g.charged, g.dev, g.ps, n, q);
    }
  }

  lemma {:induction false} BytesNone(dev: nat, ps: nat, n: nat)
    ensures Bytes({}, dev, ps, n) == 0
  {
    if n > 0 { BytesNone(dev, ps, n - 1); }
  }

  lemma BytesNext(pages: set<nat>, dev: nat, ps: nat, n: nat)
    ensures Bytes(pages, dev, ps, 0) == 0
    ensures Bytes(pages, dev, ps, n + 1) == Bytes(pages, dev, ps, n) + if n in pages then PM.PageLen(dev, ps, n) else 0
  {
  }

  class BudgetedCache {
    const cache: C.FileCacheBackend
    const budget: CacheBudget
    const lru: L.Lru
    var residentBytes: nat
    /** What the run model says this owner holds. */
    ghost var book: Holding

    ghost function NumPages(): nat
      requires cache.pageSize > 0
    {
      C.NumPages(cache.devSize, cache.pageSize)
    }

    /** The recency index lists `book.listed`, and as evictable the clean pages among them; no dirty page is unlisted. */
    ghost predicate Lists()
      reads this`book, lru, cache
    {
      && L.Listed(lru.model) == book.listed
      && lru.model.clean == book.listed - Pages(cache.dirty)
      && Pages(cache.dirty) <= book.listed
    }

    /** The book is about this cache, and it balances with the resident count and with the ledger. */
    ghost predicate Kept()
      reads this, budget.ledger
    {
      && book.dev == cache.devSize && book.ps == cache.pageSize
      && residentBytes == budget.Held()
      && Nested(book) && Balanced(book, residentBytes)
    }

    ghost predicate Books()
      ensures Books() ==> cache.Valid() && book.ps > 0 && Kept()
      reads this, lru, cache, cache.inner`data, budget.ledger
    {
      cache.Valid() && lru.Valid() && Kept() && Lists() && book.present == Pages(cache.present)
    }

    /** Nothing is left to evict: every listed page is dirty or protected. */
    ghost predicate Exhausted(protect: Option<nat>)
      reads this`book, cache
    {
      forall p | p in book.listed :: p in Pages(cache.dirty) || Some(p) == protect
    }

    /**
      An eviction pass that was asked for `over` bytes: what went was listed, no more than asked for and a page, and the
      ledger's total fell by as much.
    */
    ghost predicate Passing(g: Holding, es: seq<Entry>, over: nat, protect: Option<nat>)
      requires g.ps > 0
      reads this`book, budget.ledger
    {
      && Trimmed(g, book)
      && (book == g ==> budget.ledger.entries == es)
      && (book != g ==> Given(g, book) < over + g.ps)
      && (protect.Some? && protect.value in g.present ==> protect.value in book.present)
      && Sum(budget.ledger.entries) + Given(g, book) <= Sum(es) + book.clipped - g.clipped
    }

    /** How it ends: as much went as asked for, unless a punch failed or nothing was left to evict. */
    ghost predicate Settled(g: Holding, es: seq<Entry>, over: nat, failed: bool, punches: seq<bool>, protect: Option<nat>)
      requires g.ps > 0
      reads this`book, cache, budget.ledger
    {
      && Passing(g, es, over, protect)
      && (over == 0 || !cache.punchHoles ==> book == g)
      && Punched(g, book, punches, failed)
      && (cache.punchHoles && !failed ==> Given(g, book) >= over || Exhausted(protect))
    }

    /** A pass that was asked for the whole excess brings the total back under the limit. */
    lemma BackUnder(g: Holding, es: seq<Entry>, over: nat, failed: bool, punches: seq<bool>, protect: Option<nat>)
      requires g.ps > 0 && Settled(g, es, over, failed, punches, protect) && over == Excess(es, budget.maxBytes)
      requires cache.punchHoles && !failed && book.clipped == g.clipped && Sum(es) <= U64_MAX
      ensures Sum(budget.ledger.entries) <= budget.maxBytes || Exhausted(protect)
    {
      hide Trimmed, Given;
    }

    // ----- Opening -----

    /**
      Seed the recency index and the balance from the pages recovered off disk.  `sparse` is where the filesystem
      reports holes; a clean page there is left out.
    */
    constructor (cache: C.FileCacheBackend, budget: CacheBudget, sparse: set<nat>, live: set<nat>)
      requires cache.Valid()
      modifies budget.ledger
      ensures this.cache == cache && this.budget == budget && Books()
      ensures var full := Pages(cache.present) - (sparse - Pages(cache.dirty));
        book == Opened(cache.devSize, cache.pageSize, Pages(cache.present) - full, full)
      ensures L.Ascending(lru.model.order)
      ensures budget.ledger.entries == Transacted(old(budget.ledger.entries), budget.owner, budget.pid, live, residentBytes)
    {
      hide C.FileCacheBackend.Valid, L.Lru.Valid, Transacted, Balance, Bytes, L.Listed, Metadata.Pages, BitGet,
           C.NumPages, L.Ascending;
      this.cache := cache;
      this.budget := budget;
      lru := new L.Lru();
      residentBytes := 0;
      ghost var full := Pages(cache.present) - (sparse - Pages(cache.dirty));
      book := Opened(cache.devSize, cache.pageSize, Pages(cache.present) - full, full);
      new;
      EmptyLists(lru.model);
      cache.Sizes();
      cache.FitsU64();
      Seed(sparse, full);
      OpenBalances(cache.devSize, cache.pageSize, Pages(cache.present) - full, full);
      DirtyPresent();
      assert Pages(cache.present) - full + full == Pages(cache.present);
      var over := budget.Reset(residentBytes, live);
    }

    lemma DirtyPresent()
      requires cache.Valid()
      ensures Pages(cache.dirty) <= Pages(cache.present)
    {
    }

    static lemma EmptyLists(r: L.Recency)
      requires r == L.Recency([], {})
      ensures L.Listed(r) == {}
    {
    }

    /** The pages of `full` below `p` are listed and counted. */
    ghost predicate Seeded(full: set<nat>, p: nat)
      reads this`residentBytes, lru, cache`dirty
    {
      && lru.Valid()
      && L.Listed(lru.model) == MF.Below(full, p) && lru.model.clean == MF.Below(full, p) - Pages(cache.dirty)
      && residentBytes == Bytes(full, cache.devSize, cache.pageSize, p)
      && L.Ascending(lru.model.order)
    }

    /** Touch and count page `p`, if it is present and takes up disk. */
    method SeedOne(p: nat, sparse: set<nat>, ghost full: set<nat>)
      requires Seeded(full, p) && IsU64(cache.devSize) && full == Pages(cache.present) - (sparse - Pages(cache.dirty))
      modifies this`residentBytes, lru
      ensures Seeded(full, p + 1)
    {
      hide PM.PageLen, L.Lru.Valid, L.Listed, Metadata.Pages, L.Without, MF.Below, Bytes, BitGet, L.Ascending;
      MF.BelowNext(full, p);
      BytesNext(full, cache.devSize, cache.pageSize, p);
      BytesWithin(full, cache.devSize, cache.pageSize, p + 1);
      IsFull(p, sparse, full);
      var isDirty := BitGet(cache.dirty, p);
      if BitGet(cache.present, p) && (isDirty || p !in sparse) {
        residentBytes := SatAdd(residentBytes, PM.PageLen(cache.devSize, cache.pageSize, p));
        NoneAbove(full, p);
        L.TouchAscending(lru.model, p, !isDirty);
        lru.Touch(p, !isDirty);
      }
    }

    static lemma NoneAbove(full: set<nat>, p: nat)
      ensures forall q | q in MF.Below(full, p) :: q < p
    {
    }

    /** Touch and count every present page that takes up disk. */
    method Seed(sparse: set<nat>, ghost full: set<nat>)
      requires cache.Valid() && lru.Valid() && lru.model == L.Recency([], {}) && L.Listed(lru.model) == {}
      requires full == Pages(cache.present) - (sparse - Pages(cache.dirty))
      modifies this`residentBytes, lru
      ensures lru.Valid() && L.Listed(lru.model) == full && lru.model.clean == full - Pages(cache.dirty)
      ensures residentBytes == Bytes(full, cache.devSize, cache.pageSize, NumPages())
      ensures L.Ascending(lru.model.order)
    {
      hide PM.PageLen, C.FileCacheBackend.Valid, L.Lru.Valid, L.Listed, Metadata.Pages, C.NumPages, L.Without,
           MF.Below, Bytes;
      cache.Sizes();
      cache.FitsU64();
      var num := C.NumPages(cache.devSize, cache.pageSize);
      residentBytes := 0;
      var p := 0;
      MF.BelowNone(full);
      BytesNext(full, cache.devSize, cache.pageSize, 0);
      while p < num
        invariant 0 <= p <= num && Seeded(full, p)
      {
        SeedOne(p, sparse, full);
        p := p + 1;
      }
      AllBelow(full);
    }

    lemma IsFull(p: nat, sparse: set<nat>, full: set<nat>)
      requires full == Pages(cache.present) - (sparse - Pages(cache.dirty))
      ensures p in full <==> BitGet(cache.present, p) && (BitGet(cache.dirty, p) || p !in sparse)
      ensures p in Pages(cache.dirty) <==> BitGet(cache.dirty, p)
    {
    }

    /** Every present page is below the page count. */
    lemma AllBelow(full: set<nat>)
      requires cache.Valid() && full <= Pages(cache.present)
      ensures MF.Below(full, NumPages()) == full
    {
      forall p | p in full ensures p < NumPages() { C.PageOnDevice(cache.devSize, cache.pageSize, p); }
    }

    // ----- Eviction -----

    lemma ListedOnDevice(p: nat)
      requires cache.Valid() && Kept() && book.present == Pages(cache.present) && p in book.present
      ensures OnDevice(book, p) && LenOf(book, p) > 0 && LenOf(book, p) <= book.ps
    {
      C.PageOnDevice(cache.devSize, cache.pageSize, p);
    }

    /** Drop one clean page that the recency index has already given up. */
    method Drop(p: nat, live: set<nat>) returns (len: nat)
      requires cache.Valid() && Kept() && book.present == Pages(cache.present) && Pages(cache.dirty) <= book.listed
      requires p in book.listed && p !in Pages(cache.dirty) && OnDevice(book, p)
      modifies this`residentBytes, this`book, cache`data, cache`present, cache`meta, budget.ledger
      ensures cache.Valid() && Kept() && book.present == Pages(cache.present) && cache.View() == old(cache.View())
      ensures book == Evicted(old(book), p, old(residentBytes)) && len == LenOf(old(book), p)
      ensures Sum(budget.ledger.entries) + len + old(book.clipped) <= old(Sum(budget.ledger.entries)) + book.clipped
    {
      hide C.FileCacheBackend.Valid, C.FileCacheBackend.View, Transacted, Balance, Sum, Metadata.Pages, BitGet,
           PM.PageLen, Bytes, C.NumPages, Balanced, OnDevice;
      len := PM.PageLen(cache.devSize, cache.pageSize, p);
      EvictMoves(book, p, residentBytes);
      TransactedSum(budget.ledger.entries, budget.owner, budget.pid, live, SatSub(budget.Held(), len));
      cache.EvictPage(p);
      book := Evicted(book, p, residentBytes);
      residentBytes := SatSub(residentBytes, len);
      budget.Release(len, live);
    }

    /** Evict the oldest evictable page; a failed hole punch, which `punched` tells, puts it back. */
    method EvictOne(protect: Option<nat>, punched: bool, live: set<nat>) returns (r: Eviction)
      requires Books()
      modifies this`residentBytes, this`book, lru, cache`data, cache`present, cache`meta, budget.ledger
      ensures Books() && cache.View() == old(cache.View())
      ensures r.Dropped? ==>
                && Some(r.page) == old(lru.model).Victim(protect) && lru.model == old(lru.model).Drop(r.page)
                && r.page in old(book.listed) && Some(r.page) != protect && OnDevice(old(book), r.page)
                && book == Evicted(old(book), r.page, old(residentBytes)) && 0 < r.len == LenOf(old(book), r.page) <= old(book.ps)
                && Sum(budget.ledger.entries) + r.len + old(book.clipped) <= old(Sum(budget.ledger.entries)) + book.clipped
      ensures !r.Dropped? ==> book == old(book) && budget.ledger.entries == old(budget.ledger.entries)
      ensures r.PunchFailed? ==>
                var p := old(lru.model).Victim(protect); p.Some? && lru.model == old(lru.model).Drop(p.value).Touch(p.value, true)
      ensures r.Nothing? ==> lru.model == old(lru.model)
      ensures (r.PunchFailed? ==> !punched) && (r.Dropped? ==> punched)
      ensures r.Nothing? ==> Exhausted(protect)
    {
      hide C.FileCacheBackend.Valid, C.FileCacheBackend.View, L.Lru.Valid, L.Listed, L.Without, L.FirstClean,
           Metadata.Pages, BitGet, PM.PageLen, Bytes, Balanced, Balance, OnDevice, Sum;
      var victim := lru.PopLru(protect);
      if victim.None? { return Nothing; }
      var p := victim.value;
      ListedOnDevice(p);
      if !punched {
        lru.Touch(p, true);
        assert book.listed - {p} + {p} == book.listed;
        return PunchFailed;
      }
      var len := Drop(p, live);
      r := Dropped(p, len);
    }

    /** One eviction of a pass that is not done. */
    lemma OneMore(g: Holding, es: seq<Entry>, h: Holding, q: nat, balance: nat, sum: nat, over: nat, protect: Option<nat>)
      requires g.ps > 0 && Trimmed(g, h) && q in h.listed && h.listed <= h.present && OnDevice(h, q) && LenOf(h, q) <= h.ps
      requires book == Evicted(h, q, balance) && Given(g, h) < over && Some(q) != protect
      requires protect.Some? && protect.value in g.present ==> protect.value in h.present
      requires sum + Given(g, h) <= Sum(es) + h.clipped - g.clipped
      requires Sum(budget.ledger.entries) + LenOf(h, q) + h.clipped <= sum + book.clipped
      ensures Passing(g, es, over, protect) && Given(g, book) == Given(g, h) + LenOf(h, q) && book.present < h.present
      ensures Gone(g, book) == Gone(g, h) + 1
    {
      hide Given, Sum, SumOf;
      TrimmedMore(g, h, q, balance);
      assert g.present - book.present == (g.present - h.present) + {q};
    }

    lemma Ordered()
      requires Books()
      ensures book.listed <= book.present
    {
    }

    /** What is left to give back, and how many punches have succeeded. */
    ghost predicate Tally(g: Holding, over: nat, rest: nat, i: nat, punches: seq<bool>)
      requires g.ps > 0
      reads this`book
    {
      && rest == SatSub(over, Given(g, book)) && (over == 0 ==> book == g)
      && i == Gone(g, book) && forall j | 0 <= j < i && j < |punches| :: punches[j]
    }

    lemma TallyNext(g: Holding, h: Holding, over: nat, rest: nat, len: nat, i: nat, punches: seq<bool>)
      requires g.ps > 0 && 0 < rest == SatSub(over, Given(g, h)) && i == Gone(g, h)
      requires forall j | 0 <= j < i && j < |punches| :: punches[j]
      requires (i >= |punches| || punches[i]) && Given(g, book) == Given(g, h) + len && Gone(g, book) == i + 1
      ensures Tally(g, over, SatSub(rest, len), i + 1, punches)
    {
      hide Given, Gone;
    }

    /** One step of a pass, with punch `i`. */
    method EvictNext(ghost g: Holding, ghost es: seq<Entry>, ghost start: L.Recency, ghost over: nat, rest: nat, protect: Option<nat>,
                     i: nat, punches: seq<bool>)
      returns (r: Eviction)
      requires Books() && L.Popped(start, lru.model, protect) && g.ps > 0 && Passing(g, es, over, protect)
      requires rest > 0 && Tally(g, over, rest, i, punches)
      modifies this`residentBytes, this`book, lru, cache`data, cache`present, cache`meta, budget.ledger
      ensures Books() && cache.View() == old(cache.View()) && Passing(g, es, over, protect)
      ensures if r.Dropped? then book.present < old(book.present) && Tally(g, over, SatSub(rest, r.len), i + 1, punches)
              else Tally(g, over, rest, i, punches)
      ensures if r.PunchFailed? then L.OldestGone(start, book.listed, protect) else L.Popped(start, lru.model, protect)
      ensures r.PunchFailed? ==> i < |punches| && !punches[i]
      ensures r.Nothing? ==> Exhausted(protect)
    {
      hide Books, C.FileCacheBackend.View, Metadata.Pages, BitGet, Exhausted, Trimmed, Given, Sum, LenOf, OnDevice,
           Evicted, Gone, L.Popped, L.OldestGone, L.Listed;
      Ordered();
      GoneInOrder(start, protect);
      ghost var r0 := lru.model;
      ghost var h, balance, sum := book, residentBytes, Sum(budget.ledger.entries);
      var live: set<nat> := *;
      r := EvictOne(protect, i >= |punches| || punches[i], live);
      if r.Dropped? {
        OneMore(g, es, h, r.page, balance, sum, over, protect);
        TallyNext(g, h, over, rest, r.len, i, punches);
        L.PoppedMore(start, r0, protect, r.page);
      }
    }

    /** A pass that has given back enough, found nothing more or failed is over. */
    lemma PassEnds(g: Holding, es: seq<Entry>, over: nat, rest: nat, i: nat, punches: seq<bool>, failed: bool, protect: Option<nat>)
      requires g.ps > 0 && Passing(g, es, over, protect) && Tally(g, over, rest, i, punches) && cache.punchHoles
      requires if failed then i < |punches| && !punches[i] else rest == 0 || Exhausted(protect)
      ensures Settled(g, es, over, failed, punches, protect)
    {
      hide Given, Gone, Passing, Exhausted;
    }

    lemma GoneInOrder(start: L.Recency, protect: Option<nat>)
      requires Books() && L.Popped(start, lru.model, protect)
      ensures L.OldestGone(start, book.listed, protect)
    {
    }

    lemma NoneGone(protect: Option<nat>)
      requires Books()
      ensures L.Popped(lru.model, lru.model, protect)
    {
      L.PoppedNone(lru.model, protect);
    }

    lemma PassBegins(over: nat, protect: Option<nat>, punches: seq<bool>)
      requires book.ps > 0
      ensures Passing(book, budget.ledger.entries, over, protect) && Tally(book, over, over, 0, punches)
      ensures over == 0 || !cache.punchHoles ==> Settled(book, budget.ledger.entries, over, false, punches, protect)
    {
      TrimmedNone(book);
    }

    /**
      Evict clean pages, oldest first, until `over` bytes are given back.  `punches` tells which hole punches succeed,
      those past its end all do; the first that fails stops the pass.
    */
    method EvictClean(over: nat, protect: Option<nat>, punches: seq<bool>) returns (failed: bool)
      requires Books()
      modifies this`residentBytes, this`book, lru, cache`data, cache`present, cache`meta, budget.ledger
      ensures Books() && cache.View() == old(cache.View())
      ensures Settled(old(book), old(budget.ledger.entries), over, failed, punches, protect)
      ensures L.OldestGone(old(lru.model), book.listed, protect)
    {
      hide Books, C.FileCacheBackend.View, Exhausted, Passing, Tally, Settled, L.Popped, L.OldestGone, SatSub;
      failed := false;
      ghost var start := lru.model;
      ghost var g, es := book, budget.ledger.entries;
      NoneGone(protect);
      GoneInOrder(start, protect);
      PassBegins(over, protect, punches);
      if !cache.punchHoles { return; }
      var rest := over;
      var i := 0;
      while rest > 0
        invariant Books() && cache.View() == old(cache.View()) && Passing(g, es, over, protect)
        invariant Tally(g, over, rest, i, punches) && L.Popped(start, lru.model, protect)
        decreases book.present
      {
        var e := EvictNext(g, es, start, over, rest, protect, i, punches);
        if e.PunchFailed? {
          PassEnds(g, es, over, rest, i, punches, true, protect);
          return true;
        }
        if e.Nothing? { break; }
        rest := SatSub(rest, e.len);
        i := i + 1;
      }
      GoneInOrder(start, protect);
      PassEnds(g, es, over, rest, i, punches, false, protect);
    }

    // ----- The operations -----

    /** What the ledger holds once it is told a balance, if it is. */
    ghost function Told(es: seq<Entry>, live: set<nat>, told: Option<nat>): seq<Entry> {
      if told.Some? then Transacted(es, budget.owner, budget.pid, live, told.value) else es
    }

    /** The step of the run that storing page `p` is: a fetch, perhaps as a hole, or a write. */
    ghost function Stored(p: nat, clean: bool, hole: bool): Event {
      if clean then Fetch(budget.owner, budget.pid, p, hole) else Write(budget.owner, budget.pid, p)
    }

    /**
      The outcome of storing page `p`: the step itself, then, if the ledger was told of it, a pass for exactly the excess
      of the total it then recorded; back under the limit unless a punch failed, nothing is left, or holes were released.
    */
    ghost predicate Accounted(g: Holding, es: seq<Entry>, e: Event, balance: nat, live: set<nat>, over: nat, failed: bool, punches: seq<bool>)
      requires g.ps > 0 && (e.Fetch? || e.Write?)
      reads this`book, cache, budget.ledger
    {
      var next := Next(g, balance, e);
      && over == (if next.1.Some? then Excess(Told(es, live, next.1), budget.maxBytes) else 0)
      && Settled(next.0, Told(es, live, next.1), over, failed, punches, Some(e.page))
      && (next.1.Some? && cache.punchHoles && !failed && book.uncharged == 0 && Sum(Told(es, live, next.1)) <= U64_MAX ==>
            Sum(budget.ledger.entries) <= budget.maxBytes || Exhausted(Some(e.page)))
    }

    /** While nothing uncharged was released nothing is clipped, so the pass brings the total back under the limit. */
    lemma Account(g: Holding, es: seq<Entry>, e: Event, balance: nat, live: set<nat>, over: nat, failed: bool, punches: seq<bool>)
      requires Kept() && g.ps > 0 && (e.Fetch? || e.Write?)
      requires var next := Next(g, balance, e);
        && over == (if next.1.Some? then Excess(Told(es, live, next.1), budget.maxBytes) else 0)
        && Settled(next.0, Told(es, live, next.1), over, failed, punches, Some(e.page))
      ensures Accounted(g, es, e, balance, live, over, failed, punches)
    {
      hide Excess, Given, Sum, SumOf, Told, Exhausted, Next, Charge, Balance;
      var next := Next(g, balance, e);
      if next.1.Some? && cache.punchHoles && !failed && book.uncharged == 0 && Sum(Told(es, live, next.1)) <= U64_MAX {
        BackUnder(next.0, Told(es, live, next.1), over, failed, punches, Some(e.page));
      }
    }

    /** Charge a page to the resident count and to the ledger. */
    method ChargePage(p: nat, live: set<nat>) returns (over: nat)
      requires Kept() && p !in book.listed && OnDevice(book, p)
      modifies this`residentBytes, this`book, budget.ledger
      ensures Kept() && book == Charge(old(book), p) && over == budget.Over()
      ensures budget.ledger.entries == Told(old(budget.ledger.entries), live, Some(SatAdd(old(residentBytes), LenOf(old(book), p))))
    {
      hide Bytes, Transacted, Balance, Balanced, OnDevice, PM.PageLen;
      ChargeMoves(book, p, residentBytes);
      var len := PM.PageLen(cache.devSize, cache.pageSize, p);
      book := Charge(book, p);
      residentBytes := SatAdd(residentBytes, len);
      over := budget.Admit(len, live);
    }

    /** The books of a page that is stored but not accounted for. */
    ghost predicate Pending(p: nat, clean: bool, hole: bool)
      ensures Pending(p, clean, hole) ==> cache.Valid() && lru.Valid() && book.ps > 0
      reads this, lru, cache, cache.inner`data, budget.ledger
    {
      && cache.Valid() && lru.Valid() && Kept()
      && book.present + {p} == Pages(cache.present) && clean == (p !in Pages(cache.dirty))
      && L.Listed(lru.model) == book.listed && lru.model.clean <= book.listed
      && lru.model.clean - {p} == book.listed - Pages(cache.dirty) - {p} && Pages(cache.dirty) - {p} <= book.listed
      && (clean ==> p !in book.present) && (hole ==> clean)
      && OnDevice(book, p)
    }

    /** A hole: present, but neither listed nor charged. */
    method AccountHole(p: nat)
      requires Pending(p, true, true)
      modifies this`book
      ensures Books() && book == old(book).(present := old(book.present) + {p})
    {
      hide C.FileCacheBackend.Valid, L.Lru.Valid, L.Listed, L.Without, Metadata.Pages, BitGet, Bytes, Balance, OnDevice;
      book := book.(present := book.present + {p});
      SameElsewhere(lru.model.clean, book.listed - Pages(cache.dirty), p);
    }

    /** A listed page that was written: recency and evictability change, and nothing is charged. */
    method AccountListed(p: nat)
      requires Pending(p, false, false) && p in book.listed
      modifies this`book, lru
      ensures Books() && book == old(book).(onDisk := old(book.onDisk) + {p}) && lru.model == old(lru.model).Touch(p, false)
    {
      hide C.FileCacheBackend.Valid, L.Lru.Valid, L.Listed, L.Without, Metadata.Pages, BitGet, Bytes, Balance, OnDevice;
      lru.Touch(p, false);
      book := book.(onDisk := book.onDisk + {p});
    }

    /** Any other page is listed and charged. */
    method AccountNew(p: nat, clean: bool, live: set<nat>) returns (over: nat)
      requires Pending(p, clean, false) && p !in book.listed
      modifies this`residentBytes, this`book, lru, budget.ledger
      ensures Books() && book == Charge(old(book), p) && over == budget.Over() && lru.model == old(lru.model).Touch(p, clean)
      ensures budget.ledger.entries == Told(old(budget.ledger.entries), live, Some(SatAdd(old(residentBytes), LenOf(old(book), p))))
    {
      hide C.FileCacheBackend.Valid, L.Lru.Valid, L.Listed, L.Without, Metadata.Pages, BitGet, Bytes, Balance,
           Balanced, OnDevice, PM.PageLen, Told;
      lru.Touch(p, clean);
      assert lru.model.clean - {p} == old(lru.model.clean) - {p};
      assert book.listed + {p} - Pages(cache.dirty) - {p} == book.listed - Pages(cache.dirty) - {p};
      SameElsewhere(lru.model.clean, book.listed + {p} - Pages(cache.dirty), p);
      over := ChargePage(p, live);
    }

    /**
      Account for page `p`, which has just been stored; a page not listed yet is charged, and if the shared total is then
      over the limit, as much is evicted as it is over.
    */
    method AccountPresent(p: nat, clean: bool, hole: bool, live: set<nat>, punches: seq<bool>) returns (over: nat, failed: bool)
      requires Pending(p, clean, hole)
      modifies this`residentBytes, this`book, lru, cache`data, cache`present, cache`meta, budget.ledger
      ensures Books() && cache.View() == old(cache.View())
      ensures Accounted(old(book), old(budget.ledger.entries), Stored(p, clean, hole), old(residentBytes), live, over, failed, punches)
      ensures Refreshed(old(lru.model), p, clean, hole, over)
    {
      hide Books, Pending, C.FileCacheBackend.View, Accounted, Settled, LenOf, Charge, Next, Excess, L.Listed, Kept,
           CacheBudget.Held, SatAdd, C.FileCacheBackend.Valid, L.Lru.Valid, Metadata.Pages, BitGet, Balance, Sum,
           Bytes, Transacted, Nested, Balanced, L.OldestGone, L.Without;
      over, failed := 0, false;
      ghost var start := lru.model;
      ghost var g, balance, es := book, residentBytes, budget.ledger.entries;
      StepIs(g, balance, p, clean, hole);
      if hole {
        AccountHole(p);
        SettledAtOnce(punches, Some(p));
      } else if lru.Contains(p) {
        AccountListed(p);
        SettledAtOnce(punches, Some(p));
        NoneGone(Some(p));
        GoneInOrder(lru.model, Some(p));
      } else {
        over := AccountNew(p, clean, live);
        if over > 0 {
          failed := EvictClean(over, Some(p), punches);
        } else {
          SettledAtOnce(punches, Some(p));
          NoneGone(Some(p));
          GoneInOrder(lru.model, Some(p));
        }
      }
      Account(g, es, Stored(p, clean, hole), balance, live, over, failed, punches);
      assert Refreshed(start, p, clean, hole, over);
    }

    /** The page stored is the newest, unless it is a hole; what was then evicted was older than what could have gone instead. */
    ghost predicate Refreshed(start: L.Recency, p: nat, clean: bool, hole: bool, over: nat)
      reads lru, this`book
    {
      && (hole ==> lru.model == start)
      && (!hole && over == 0 ==> lru.model == start.Touch(p, clean))
      && (!hole ==> L.OldestGone(start.Touch(p, clean), book.listed, Some(p)))
    }

    /** What the step does, case by case. */
    lemma StepIs(g: Holding, balance: nat, p: nat, clean: bool, hole: bool)
      requires Pending(p, clean, hole) && g == book
      ensures lru.Valid() && (p in L.Listed(lru.model) <==> p in g.listed) && (hole ==> clean)
      ensures var next := Next(g, balance, Stored(p, clean, hole));
        next == if hole then (g.(present := g.present + {p}), None)
                else if p in g.listed then (g.(onDisk := g.onDisk + {p}), None)
                else (Charge(g, p), Some(SatAdd(balance, LenOf(g, p))))
      ensures p in g.listed ==> !clean
    {
    }

    lemma SettledAtOnce(punches: seq<bool>, protect: Option<nat>)
      requires Books()
      ensures book.ps > 0 && Kept() && Settled(book, budget.ledger.entries, 0, false, punches, protect)
    {
      PassBegins(0, protect, punches);
    }

    /** A page just stored is pending. */
    lemma IsPending(p: nat, clean: bool, hole: bool, dirty: set<nat>)
      requires cache.Valid() && lru.Valid() && Kept() && L.Listed(lru.model) == book.listed
      requires lru.model.clean == book.listed - dirty && dirty <= book.listed
      requires Pages(cache.dirty) == if clean then dirty else dirty + {p}
      requires Pages(cache.present) == book.present + {p} && PM.PageLen(cache.devSize, cache.pageSize, p) > 0
      requires (clean ==> p !in book.present) && (hole ==> clean)
      ensures Pending(p, clean, hole)
    {
      hide C.FileCacheBackend.Valid, L.Lru.Valid, L.Listed, Metadata.Pages, Balanced, Balance, PM.PageLen;
      C.PageOnDevice(cache.devSize, cache.pageSize, p);
    }

    /** Make a page present; an all-zero page becomes a hole where it can, any other page is charged. */
    method FetchPage(p: nat, live: set<nat>, punched: bool, punches: seq<bool>) returns (r: Result<()>, hole: bool, over: nat, failed: bool)
      requires Books() && PM.PageLen(cache.devSize, cache.pageSize, p) > 0
      modifies this`residentBytes, this`book, lru, cache`data, cache`present, cache`meta, budget.ledger, cache.inner`failures
      ensures Books() && cache.View() == old(cache.View())
      ensures cache.inner.failures >= old(cache.inner.failures) && (r.Ok? <==> cache.inner.failures == old(cache.inner.failures))
      ensures hole <==> r.Ok? && p !in old(book.present) && cache.ZeroAt(p) && cache.punchHoles && punched
      ensures r.Err? || p in old(book.present) ==> book == old(book) && budget.ledger.entries == old(budget.ledger.entries)
      ensures r.Err? || p in old(book.present) ==> over == 0 && !failed
      ensures r.Ok? && p !in old(book.present) ==>
        && Accounted(old(book), old(budget.ledger.entries), Stored(p, true, hole), old(residentBytes), live, over, failed, punches)
        && Refreshed(old(lru.model), p, true, hole, over)
      ensures r.Err? || p in old(book.present) ==> lru.model == old(lru.model)
      ensures p in old(book.present) ==> r.Ok?
    {
      hide C.FileCacheBackend.Valid, C.FileCacheBackend.View, L.Lru.Valid, L.Listed, Metadata.Pages, Kept, Accounted,
           Pending, PM.PageLen, C.FileCacheBackend.ZeroAt, Refreshed;
      hole, over, failed := false, 0, false;
      Unpacked(p);
      if BitGet(cache.present, p) { return Ok(()), false, 0, false; }
      ghost var dirty := Pages(cache.dirty);
      r, hole := cache.EnsurePage(p, punched);
      if r.Err? { return; }
      IsPending(p, true, hole, dirty);
      over, failed := AccountPresent(p, true, hole, live, punches);
    }

    lemma Unpacked(p: nat)
      requires Books()
      ensures p in book.present <==> BitGet(cache.present, p)
      ensures 0 < cache.pageSize && cache.devSize == |cache.inner.data|
    {
    }

    /** Write part of a page; it becomes dirty, is charged if it was not listed, and can no longer be evicted. */
    method DirtyRegion(p: nat, o: nat, payload: seq<Byte>, ghost at: nat, live: set<nat>, punches: seq<bool>) returns (over: nat, failed: bool)
      requires Books()
      requires 0 < |payload| && o + |payload| <= PM.PageLen(cache.devSize, cache.pageSize, p)
      requires p in book.present || (o == 0 && |payload| == PM.PageLen(cache.devSize, cache.pageSize, p))
      requires at == p * cache.pageSize + o && at + |payload| <= cache.devSize
      modifies this`residentBytes, this`book, lru, cache`data, cache`present, cache`dirty, cache`gens, cache`meta, budget.ledger
      ensures Books() && |old(cache.View())| == cache.devSize && cache.View() == Splice(old(cache.View()), at, payload)
      ensures Accounted(old(book), old(budget.ledger.entries), Stored(p, false, false), old(residentBytes), live, over, failed, punches)
      ensures Refreshed(old(lru.model), p, false, false, over)
    {
      hide C.FileCacheBackend.Valid, C.FileCacheBackend.View, L.Lru.Valid, L.Listed, Metadata.Pages, Kept, Accounted,
           Pending, PM.PageLen, Splice, Refreshed;
      cache.Sizes();
      ghost var dirty := Pages(cache.dirty);
      cache.DirtyPageRegion(p, o, payload, at);
      IsPending(p, false, false, dirty);
      over, failed := AccountPresent(p, false, false, live, punches);
    }

    /** One chunk of a read; a hit refreshes the page's recency, and so lists a hole that was not listed. */
    method ReadChunk(at: nat, n: nat) returns (r: Result<seq<Byte>>)
      requires Books() && at + n <= cache.devSize && PM.OnePage(at, n, cache.pageSize)
      modifies this`book, lru, cache.inner`failures
      ensures Books() && |cache.View()| == cache.devSize && (r.Ok? ==> r.value == cache.View()[at..at + n])
      ensures cache.inner.failures >= old(cache.inner.failures) && (r.Ok? <==> cache.inner.failures == old(cache.inner.failures))
      ensures var p := PM.PageAt(at, cache.pageSize);
        && book == (if p in old(book.present) then Next(old(book), residentBytes, Hit(budget.owner, budget.pid, p)).0 else old(book))
        && lru.model == (if p in old(book.present) then old(lru.model).Touch(p, p !in Pages(cache.dirty)) else old(lru.model))
        && (p in old(book.present) ==> r.Ok?)
    {
      hide C.FileCacheBackend.Valid, C.FileCacheBackend.View, L.Lru.Valid, L.Listed, L.Without, Metadata.Pages,
           Balance, Bytes, PM.PageLen, PM.OnePage, PM.PageAt;
      cache.Sizes();
      var p := PM.PageAt(at, cache.pageSize);
      Unpacked(p);
      r := cache.ReadChunk(at, n);
      if r.Ok? && BitGet(cache.present, p) {
        DirtyBit(p);
        lru.Touch(p, !BitGet(cache.dirty, p));
        book := book.(listed := book.listed + {p});
      }
    }

    lemma DirtyBit(p: nat)
      ensures p in Pages(cache.dirty) <==> BitGet(cache.dirty, p)
    {
    }

    /** Flush one page; once clean it can be evicted. */
    method FlushPage(p: nat) returns (r: Result<()>)
      requires Books() && p < NumPages() && p in Pages(cache.dirty)
      modifies lru, cache`dirty, cache`meta, cache.inner
      ensures Books() && cache.View() == old(cache.View()) && book == old(book)
      ensures Pages(cache.dirty) == if r.Ok? then old(Pages(cache.dirty)) - {p} else old(Pages(cache.dirty))
      ensures lru.model == if r.Ok? then old(lru.model).Touch(p, true) else old(lru.model)
      ensures cache.inner.failures >= old(cache.inner.failures) && (r.Ok? <==> cache.inner.failures == old(cache.inner.failures))
    {
      hide C.FileCacheBackend.Valid, C.FileCacheBackend.View, L.Lru.Valid, L.Listed, L.Without, Metadata.Pages,
           BitGet, Kept, C.NumPages;
      r := cache.FlushPage(p);
      if r.Err? { return; }
      lru.Touch(p, true);
      assert book.listed + {p} == book.listed;
    }
  }

  lemma SameElsewhere(a: set<nat>, b: set<nat>, p: nat)
    requires a - {p} == b - {p} && (p in a <==> p in b)
    ensures a == b
  {
    forall x ensures x in a <==> x in b {
      assert x in a - {p} <==> x in b - {p};
    }
  }
}
