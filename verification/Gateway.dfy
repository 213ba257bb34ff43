/**
  The Azure I/O gateway: two priority queues, a worker pool for each direction, one shared set of permits, and an
  optional byte limiter for each direction.

  Workers, submitters that give up and the limiter's refills interleave freely.
*/
module Gateway {
  import opened Common

  datatype Dir = Download | Upload

  datatype Class = ForegroundRead | Flush | Copy | Warmup

  /** Higher is served first. */
  function Priority(c: Class): nat {
    match c
    case ForegroundRead => 3
    case Flush => 2
    case Copy => 1
    case Warmup => 0
  }

  /** Foreground reads go before flushes, flushes before copies, copies before warm-up. */
  predicate Ahead(a: Class, b: Class) {
    match a
    case ForegroundRead => !b.ForegroundRead?
    case Flush => b.Copy? || b.Warmup?
    case Copy => b.Warmup?
    case Warmup => false
  }

  /** A submitted request: its payload is charged to the limiter, and its work takes finitely many steps. */
  datatype Job = Job(id: nat, dir: Dir, class_: Class, bytes: nat, work: nat)

  /** A worker: idle, paying for a job, waiting for a permit, or running with a permit. */
  datatype Slot = Idle | Paying(job: Job, remaining: nat) | Waiting(job: Job) | Running(job: Job, left: nat)

  /** What became of a job: its result was handed over, or nobody waited for it any more. */
  datatype Outcome = Delivered | Cancelled

  /** The total of permits, each worker's direction, and each limited direction's bucket size and refill. */
  datatype Config = Config(total: nat, dirs: seq<Dir>, max: map<Dir, nat>, refill: map<Dir, nat>)

  /** `paid` holds, for every job ever submitted, the bytes charged for it so far. */
  datatype State = State(
    slots: seq<Slot>,
    queue: seq<Job>,
    free: nat,
    tokens: map<Dir, nat>,
    cancelled: set<nat>,
    outcome: map<nat, Outcome>,
    paid: map<nat, nat>)

  datatype Event =
    | Submit(job: Job)
    | Cancel(id: nat)
    | Take(worker: nat, index: nat)
    | Pay(worker: nat)
    | Claim(worker: nat)
    | Work(worker: nat)
    | Finish(worker: nat)
    | Abort(worker: nat)
    | Refill(dir: Dir)

  // ----- Construction -----

  function Clamp(n: nat, lo: nat, hi: nat): (r: nat)
    requires lo <= hi
    ensures lo <= r <= hi && (lo <= n <= hi ==> r == n)
  {
    if n < lo then lo else if n > hi then hi else n
  }

  function Copies(d: Dir, n: nat): (s: seq<Dir>)
    ensures |s| == n && forall i | 0 <= i < n :: s[i] == d
  {
    seq(n, i => d)
  }

  /** The larger of two numbers. */
  function Max(a: nat, b: nat): nat { if a < b then b else a }

  /** The bandwidth limit of a direction, in bytes per second; zero is no limit. */
  function Bps(downBps: nat, upBps: nat, d: Dir): nat { if d == Download then downBps else upBps }

  /** The limited directions, each with what `size` makes of its bandwidth. */
  function Limits(downBps: nat, upBps: nat, size: nat -> nat): (m: map<Dir, nat>)
    ensures forall d: Dir :: d in m <==> Bps(downBps, upBps, d) > 0
    ensures forall d | d in m :: m[d] == size(Bps(downBps, upBps, d))
  {
    map d: Dir | d in {Download, Upload} && Bps(downBps, upBps, d) > 0 :: size(Bps(downBps, upBps, d))
  }

  /** The bucket of a bandwidth limit holds at least one largest page request. */
  function Buckets(downBps: nat, upBps: nat): map<Dir, nat> {
    Limits(downBps, upBps, bps => Max(bps, MAX_PAGE_REQUEST_BYTES))
  }

  /** Ten refills a second. */
  function Refills(downBps: nat, upBps: nat): map<Dir, nat> {
    Limits(downBps, upBps, bps => Max(bps / 10, 1))
  }

  /** `new`: at least one permit, and for each direction between one worker and one for each permit. */
  function NewConfig(concurrency: nat, download: nat, upload: nat, downBps: nat, upBps: nat): (c: Config)
    ensures ConfigOk(c) && c.total == Max(concurrency, 1)
    ensures Workers(c.dirs, Download) == Clamp(download, 1, c.total) && Workers(c.dirs, Upload) == Clamp(upload, 1, c.total)
    ensures forall d: Dir :: d in c.max <==> Bps(downBps, upBps, d) > 0
    ensures forall d | d in c.max :: c.max[d] == Max(Bps(downBps, upBps, d), MAX_PAGE_REQUEST_BYTES)
    ensures forall d | d in c.refill :: c.refill[d] == Max(Bps(downBps, upBps, d) / 10, 1)
  {
    var total := Max(concurrency, 1);
    var d, u := Clamp(download, 1, total), Clamp(upload, 1, total);
    WorkersOfPools(d, u);
    PoolsHaveBoth(d, u);
    Config(total, Copies(Download, d) + Copies(Upload, u), Buckets(downBps, upBps), Refills(downBps, upBps))
  }

  /** How many workers serve direction `d`. */
  function Workers(dirs: seq<Dir>, d: Dir): nat {
    if dirs == [] then 0 else (if dirs[0] == d then 1 else 0) + Workers(dirs[1..], d)
  }

  lemma {:induction false} WorkersAppend(a: seq<Dir>, b: seq<Dir>, d: Dir)
    ensures Workers(a + b, d) == Workers(a, d) + Workers(b, d)
  {
    if a == [] {
      assert a + b == b;
    } else {
      WorkersAppend(a[1..], b, d);
      assert (a + b)[1..] == a[1..] + b;
    }
  }

  lemma {:induction false} WorkersCopies(c: Dir, n: nat, d: Dir)
    ensures Workers(Copies(c, n), d) == if c == d then n else 0
  {
    if n > 0 {
      WorkersCopies(c, n - 1, d);
      assert Copies(c, n)[1..] == Copies(c, n - 1);
    }
  }

  lemma WorkersOfPools(d: nat, u: nat)
    ensures var dirs := Copies(Download, d) + Copies(Upload, u);
            Workers(dirs, Download) == d && Workers(dirs, Upload) == u
  {
    WorkersAppend(Copies(Download, d), Copies(Upload, u), Download);
    WorkersAppend(Copies(Download, d), Copies(Upload, u), Upload);
    WorkersCopies(Download, d, Download);
    WorkersCopies(Upload, u, Download);
    WorkersCopies(Download, d, Upload);
    WorkersCopies(Upload, u, Upload);
  }

  lemma PoolsHaveBoth(d: nat, u: nat)
    requires d > 0 && u > 0
    ensures forall x: Dir :: x in Copies(Download, d) + Copies(Upload, u)
  {
    var dirs := Copies(Download, d) + Copies(Upload, u);
    assert dirs[0] == Download && dirs[d] == Upload;
    forall x: Dir ensures x in dirs { assert x == Download || x == Upload; }
  }

  ghost predicate ConfigOk(c: Config) {
    && c.total > 0
    && (forall d: Dir :: d in c.dirs)
    && (forall d | d in c.max :: c.max[d] > 0)
    && c.max.Keys == c.refill.Keys
    && (forall d | d in c.refill :: c.refill[d] > 0)
  }

  /** A gateway just started: everything idle, every bucket full. */
  function Started(c: Config): State {
    State(seq(|c.dirs|, i => Idle), [], c.total, c.max, {}, map[], map[])
  }

  // ----- Steps -----

  function Chunk(c: Config, d: Dir, remaining: nat): nat
    requires d in c.max
  {
    if remaining < c.max[d] then remaining else c.max[d]
  }

  ghost predicate CanDo(c: Config, s: State, e: Event) {
    match e
    case Submit(j) => j.id !in s.paid
    case Cancel(id) => id in s.paid && id !in s.outcome
    case Take(w, i) =>
      && w < |s.slots| == |c.dirs| && s.slots[w].Idle? && i < |s.queue| && s.queue[i].dir == c.dirs[w]
      && (forall k | 0 <= k < |s.queue| && s.queue[k].dir == c.dirs[w] ::
            Priority(s.queue[k].class_) <= Priority(s.queue[i].class_))
    case Pay(w) =>
      && w < |s.slots| && s.slots[w].Paying? && s.slots[w].remaining > 0
      && s.slots[w].job.dir in c.max && s.slots[w].job.dir in s.tokens && s.slots[w].job.id in s.paid
      && Chunk(c, s.slots[w].job.dir, s.slots[w].remaining) <= s.tokens[s.slots[w].job.dir]
    case Claim(w) =>
      w < |s.slots| && (s.slots[w].Waiting? || (s.slots[w].Paying? && s.slots[w].remaining == 0)) && s.free > 0
    case Work(w) => w < |s.slots| && s.slots[w].Running? && s.slots[w].left > 0
    case Finish(w) => w < |s.slots| && s.slots[w].Running? && s.slots[w].left == 0
    case Abort(w) => w < |s.slots| && s.slots[w].Running? && s.slots[w].job.id in s.cancelled
    case Refill(d) => d in c.max && d in c.refill && d in s.tokens
  }

  function WithoutIndex(q: seq<Job>, i: nat): seq<Job>
    requires i < |q|
  {
    q[..i] + q[i + 1..]
  }

  ghost function Do(c: Config, s: State, e: Event): State
    requires CanDo(c, s, e)
  {
    match e
    case Submit(j) => s.(queue := s.queue + [j], paid := s.paid[j.id := 0])
    case Cancel(id) => s.(cancelled := s.cancelled + {id})
    case Take(w, i) =>
      var j := s.queue[i];
      s.(slots := s.slots[w := if j.dir in c.max then Paying(j, j.bytes) else Waiting(j)],
         queue := WithoutIndex(s.queue, i))
    case Pay(w) =>
      var j, r := s.slots[w].job, s.slots[w].remaining;
      var n := Chunk(c, j.dir, r);
      s.(slots := s.slots[w := Paying(j, r - n)],
         tokens := s.tokens[j.dir := s.tokens[j.dir] - n],
         paid := s.paid[j.id := s.paid[j.id] + n])
    case Claim(w) => s.(slots := s.slots[w := Running(s.slots[w].job, s.slots[w].job.work)], free := s.free - 1)
    case Work(w) => s.(slots := s.slots[w := Running(s.slots[w].job, s.slots[w].left - 1)])
    case Finish(w) =>
      var id := s.slots[w].job.id;
      s.(slots := s.slots[w := Idle], free := s.free + 1,
         outcome := s.outcome[id := if id in s.cancelled then Cancelled else Delivered])
    case Abort(w) =>
      s.(slots := s.slots[w := Idle], free := s.free + 1, outcome := s.outcome[s.slots[w].job.id := Cancelled])
    case Refill(d) =>
      var t := s.tokens[d] + c.refill[d];
      s.(tokens := s.tokens[d := if t < c.max[d] then t else c.max[d]])
  }

  // ----- Counting workers -----

  /** How many workers hold a permit. */
  function RunningCount(slots: seq<Slot>): nat {
    if slots == [] then 0 else (if slots[0].Running? then 1 else 0) + RunningCount(slots[1..])
  }

  /** How many workers of direction `d` hold a permit. */
  function RunningIn(slots: seq<Slot>, dirs: seq<Dir>, d: Dir): nat
    requires |slots| == |dirs|
  {
    if slots == [] then 0
    else (if slots[0].Running? && dirs[0] == d then 1 else 0) + RunningIn(slots[1..], dirs[1..], d)
  }

  lemma {:induction false} RunningUpdate(slots: seq<Slot>, w: nat, x: Slot)
    requires w < |slots|
    ensures RunningCount(slots[w := x]) + (if slots[w].Running? then 1 else 0) ==
            RunningCount(slots) + if x.Running? then 1 else 0
  {
    var t := slots[w := x];
    if w == 0 {
      assert t[1..] == slots[1..];
    } else {
      RunningUpdate(slots[1..], w - 1, x);
      assert t[1..] == slots[1..][w - 1 := x];
    }
  }

  /** No direction runs more jobs than it has workers, nor more than all directions together. */
  lemma {:induction false} RunningInBound(slots: seq<Slot>, dirs: seq<Dir>, d: Dir)
    requires |slots| == |dirs|
    ensures RunningIn(slots, dirs, d) <= Workers(dirs, d) && RunningIn(slots, dirs, d) <= RunningCount(slots)
  {
    if slots != [] { RunningInBound(slots[1..], dirs[1..], d); }
  }

  lemma {:induction false} RunningSome(slots: seq<Slot>)
    requires RunningCount(slots) > 0
    ensures exists w :: 0 <= w < |slots| && slots[w].Running?
  {
    if !slots[0].Running? {
      RunningSome(slots[1..]);
      var w :| 0 <= w < |slots[1..]| && slots[1..][w].Running?;
      assert slots[w + 1].Running?;
    }
  }

  lemma {:induction false} NoneRunning(slots: seq<Slot>)
    requires forall w | 0 <= w < |slots| :: slots[w].Idle?
    ensures RunningCount(slots) == 0
  {
    if slots != [] {
      forall w | 0 <= w < |slots[1..]| ensures slots[1..][w].Idle? { assert slots[1..][w] == slots[w + 1]; }
      NoneRunning(slots[1..]);
    }
  }

  // ----- Where each job is -----

  function Has(x: Slot, id: nat): nat { if !x.Idle? && x.job.id == id then 1 else 0 }

  /** How many workers hold job `id`. */
  function Held(slots: seq<Slot>, id: nat): nat {
    if slots == [] then 0 else Has(slots[0], id) + Held(slots[1..], id)
  }

  /** How many queue entries are job `id`. */
  function Queued(q: seq<Job>, id: nat): nat {
    if q == [] then 0 else (if q[0].id == id then 1 else 0) + Queued(q[1..], id)
  }

  lemma {:induction false} HeldUpdate(slots: seq<Slot>, w: nat, x: Slot, id: nat)
    requires w < |slots|
    ensures Held(slots[w := x], id) + Has(slots[w], id) == Held(slots, id) + Has(x, id)
  {
    var t := slots[w := x];
    if w == 0 {
      assert t[1..] == slots[1..];
    } else {
      HeldUpdate(slots[1..], w - 1, x, id);
      assert t[1..] == slots[1..][w - 1 := x];
    }
  }

  lemma {:induction false} QueuedAppend(q: seq<Job>, j: Job, id: nat)
    ensures Queued(q + [j], id) == Queued(q, id) + if j.id == id then 1 else 0
  {
    if q == [] {
      assert q + [j] == [j] && [j][1..] == [];
    } else {
      QueuedAppend(q[1..], j, id);
      assert (q + [j])[1..] == q[1..] + [j];
    }
  }

  lemma {:induction false} QueuedRemove(q: seq<Job>, i: nat, id: nat)
    requires i < |q|
    ensures Queued(WithoutIndex(q, i), id) + (if q[i].id == id then 1 else 0) == Queued(q, id)
  {
    if i == 0 {
      assert WithoutIndex(q, 0) == q[1..];
    } else {
      QueuedRemove(q[1..], i - 1, id);
      assert WithoutIndex(q, i) == [q[0]] + WithoutIndex(q[1..], i - 1);
    }
  }

  /** In how many places a job is: queued, in a worker's hands, or among the outcomes. */
  function Places(s: State, id: nat): nat {
    Queued(s.queue, id) + Held(s.slots, id) + if id in s.outcome then 1 else 0
  }

  /** Every job ever submitted is in exactly one place. */
  ghost predicate EachJobOnce(s: State) {
    forall id: nat :: Places(s, id) == if id in s.paid then 1 else 0
  }

  /** Permits are never made or lost. */
  ghost predicate PermitsKept(c: Config, s: State) {
    s.free + RunningCount(s.slots) == c.total
  }

  // ----- Charging -----

  /** What a worker still owes and has paid is the payload; a job past paying has paid all of it, or nothing if unlimited. */
  ghost predicate SlotPaid(c: Config, x: Slot, dir: Dir, paid: map<nat, nat>) {
    !x.Idle? ==>
      && x.job.dir == dir
      && x.job.id in paid
      && (x.Paying? ==> dir in c.max && paid[x.job.id] + x.remaining == x.job.bytes)
      && (x.Waiting? ==> dir !in c.max && paid[x.job.id] == 0)
      && (x.Running? ==> paid[x.job.id] == if dir in c.max then x.job.bytes else 0)
      && (x.Running? ==> x.left <= x.job.work)
  }

  ghost predicate SlotsPaid(c: Config, s: State) {
    && |s.slots| == |c.dirs|
    && (forall w | 0 <= w < |s.slots| :: SlotPaid(c, s.slots[w], c.dirs[w], s.paid))
  }

  ghost predicate QueueUnpaid(s: State) {
    forall i | 0 <= i < |s.queue| :: s.queue[i].id in s.paid && s.paid[s.queue[i].id] == 0
  }

  ghost predicate TokensOk(c: Config, s: State) {
    s.tokens.Keys == c.max.Keys && forall d | d in s.tokens :: s.tokens[d] <= c.max[d]
  }

  ghost predicate Inv(c: Config, s: State) {
    && PermitsKept(c, s)
    && EachJobOnce(s)
    && SlotsPaid(c, s)
    && QueueUnpaid(s)
    && TokensOk(c, s)
  }

  // ----- Every step keeps the invariants -----

  lemma PermitsStep(c: Config, s: State, e: Event)
    requires PermitsKept(c, s) && CanDo(c, s, e)
    ensures PermitsKept(c, Do(c, s, e))
  {
    hide RunningCount, Priority;
    if e.Take? || e.Pay? || e.Claim? || e.Work? || e.Finish? || e.Abort? {
      RunningUpdate(s.slots, e.worker, Do(c, s, e).slots[e.worker]);
    }
  }

  /** A step moves a job from one place to the next and no other job at all. */
  lemma PlacesStep(c: Config, s: State, e: Event, id: nat)
    requires CanDo(c, s, e) && (e.Take? || e.Pay? || e.Claim? || e.Work?)
    ensures Places(Do(c, s, e), id) == Places(s, id)
  {
    hide Held, Queued, Priority;
    HeldUpdate(s.slots, e.worker, Do(c, s, e).slots[e.worker], id);
    if e.Take? { QueuedRemove(s.queue, e.index, id); }
  }

  lemma PlacesEnd(c: Config, s: State, e: Event, id: nat)
    requires EachJobOnce(s) && CanDo(c, s, e) && (e.Finish? || e.Abort?) && s.slots[e.worker].job.id in s.paid
    ensures s.slots[e.worker].job.id !in s.outcome
    ensures Places(Do(c, s, e), id) == Places(s, id)
  {
    hide Held, Queued, EachJobOnce;
    var own := s.slots[e.worker].job.id;
    HeldAtLeast(s.slots, e.worker);
    OnePlace(s, own);
    HeldUpdate(s.slots, e.worker, Idle, id);
  }

  lemma OnePlace(s: State, id: nat)
    requires EachJobOnce(s)
    ensures Places(s, id) == if id in s.paid then 1 else 0
  {
  }

  lemma OnceStep(c: Config, s: State, e: Event)
    requires EachJobOnce(s) && SlotsPaid(c, s) && CanDo(c, s, e)
    ensures EachJobOnce(Do(c, s, e))
    ensures e.Finish? || e.Abort? ==> s.slots[e.worker].job.id !in s.outcome
  {
    hide Held, Queued, Priority;
    var t := Do(c, s, e);
    if e.Finish? || e.Abort? {
      assert SlotPaid(c, s.slots[e.worker], c.dirs[e.worker], s.paid);
      PlacesEnd(c, s, e, 0);
    }
    forall id: nat ensures Places(t, id) == if id in t.paid then 1 else 0 {
      OnePlace(s, id);
      if e.Submit? {
        QueuedAppend(s.queue, e.job, id);
      } else if e.Take? || e.Pay? || e.Claim? || e.Work? {
        PlacesStep(c, s, e, id);
      } else if e.Finish? || e.Abort? {
        PlacesEnd(c, s, e, id);
      }
    }
  }

  lemma {:induction false} HeldAtLeast(slots: seq<Slot>, w: nat)
    requires w < |slots| && !slots[w].Idle?
    ensures Held(slots, slots[w].job.id) >= 1
  {
    if w > 0 { HeldAtLeast(slots[1..], w - 1); }
  }

  lemma {:induction false} QueuedAtLeast(q: seq<Job>, i: nat)
    requires i < |q|
    ensures Queued(q, q[i].id) >= 1
  {
    if i > 0 { QueuedAtLeast(q[1..], i - 1); }
  }

  /** Two workers never hold the same job. */
  lemma HeldByOne(s: State, v: nat, w: nat)
    requires EachJobOnce(s) && v < |s.slots| && w < |s.slots| && v != w && !s.slots[v].Idle? && !s.slots[w].Idle?
    ensures s.slots[v].job.id != s.slots[w].job.id
  {
    hide Held, Queued, EachJobOnce;
    var id := s.slots[w].job.id;
    OnePlace(s, id);
    HeldUpdate(s.slots, v, Idle, id);
    HeldAtLeast(s.slots[v := Idle], w);
  }

  /** A held job is not queued any more. */
  lemma QueuedIsNotHeld(s: State, i: nat, w: nat)
    requires EachJobOnce(s) && i < |s.queue| && w < |s.slots| && !s.slots[w].Idle?
    ensures s.queue[i].id != s.slots[w].job.id
  {
    hide Held, Queued, EachJobOnce;
    OnePlace(s, s.queue[i].id);
    QueuedAtLeast(s.queue, i);
    HeldAtLeast(s.slots, w);
  }

  /** A payment is the paying worker's own: no other worker's job is touched. */
  lemma PaySlots(c: Config, s: State, w: nat, t: State)
    requires EachJobOnce(s) && SlotsPaid(c, s) && CanDo(c, s, Pay(w)) && t == Do(c, s, Pay(w))
    ensures SlotsPaid(c, t)
  {
    hide EachJobOnce;
    forall v | 0 <= v < |t.slots| ensures SlotPaid(c, t.slots[v], c.dirs[v], t.paid) {
      assert SlotPaid(c, s.slots[v], c.dirs[v], s.paid);
      if v != w && !s.slots[v].Idle? { HeldByOne(s, v, w); }
    }
  }

  lemma PayQueue(c: Config, s: State, w: nat, t: State)
    requires EachJobOnce(s) && QueueUnpaid(s) && CanDo(c, s, Pay(w)) && t == Do(c, s, Pay(w))
    ensures QueueUnpaid(t)
  {
    hide EachJobOnce;
    forall i | 0 <= i < |t.queue| ensures t.queue[i].id in t.paid && t.paid[t.queue[i].id] == 0 {
      QueuedIsNotHeld(s, i, w);
    }
  }

  lemma SlotsStep(c: Config, s: State, e: Event)
    requires EachJobOnce(s) && SlotsPaid(c, s) && QueueUnpaid(s) && CanDo(c, s, e)
    ensures SlotsPaid(c, Do(c, s, e))
  {
    hide EachJobOnce, Priority;
    var t := Do(c, s, e);
    if e.Pay? {
      PaySlots(c, s, e.worker, t);
    } else {
      forall v | 0 <= v < |t.slots| ensures SlotPaid(c, t.slots[v], c.dirs[v], t.paid) {
        assert SlotPaid(c, s.slots[v], c.dirs[v], s.paid);
      }
    }
  }

  lemma QueueStep(c: Config, s: State, e: Event)
    requires EachJobOnce(s) && QueueUnpaid(s) && CanDo(c, s, e)
    ensures QueueUnpaid(Do(c, s, e))
  {
    hide EachJobOnce, Priority;
    var t := Do(c, s, e);
    if e.Pay? {
      PayQueue(c, s, e.worker, t);
    } else {
      forall i | 0 <= i < |t.queue| ensures t.queue[i].id in t.paid && t.paid[t.queue[i].id] == 0 {
        if e.Take? {
          var k := if i < e.index then i else i + 1;
          assert t.queue[i] == s.queue[k];
        }
      }
    }
  }

  lemma EventKeepsInv(c: Config, s: State, e: Event)
    requires Inv(c, s) && CanDo(c, s, e)
    ensures Inv(c, Do(c, s, e))
  {
    hide PermitsKept, EachJobOnce, SlotsPaid, QueueUnpaid, Priority;
    PermitsStep(c, s, e);
    OnceStep(c, s, e);
    SlotsStep(c, s, e);
    QueueStep(c, s, e);
  }

  lemma StartedInv(c: Config)
    requires ConfigOk(c)
    ensures Inv(c, Started(c))
  {
    var s := Started(c);
    NoneRunning(s.slots);
    forall id: nat ensures Places(s, id) == 0 { NoneHeld(s.slots, id); }
  }

  lemma {:induction false} NoneHeld(slots: seq<Slot>, id: nat)
    requires forall w | 0 <= w < |slots| :: slots[w].Idle?
    ensures Held(slots, id) == 0
  {
    if slots != [] {
      forall w | 0 <= w < |slots[1..]| ensures slots[1..][w].Idle? { assert slots[1..][w] == slots[w + 1]; }
      NoneHeld(slots[1..], id);
    }
  }
}
