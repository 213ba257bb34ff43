/** What holds over whole runs of the gateway, and that it drains. */
module GatewayRuns {
  import opened Common
  import opened Gateway

  /** A run, newest event last. */
  datatype History = Begin | Then(before: History, event: Event)

  ghost predicate Valid(c: Config, h: History)
    decreases h, 0
  {
    h.Then? ==> Valid(c, h.before) && CanDo(c, End(c, h.before), h.event)
  }

  ghost function End(c: Config, h: History): State
    requires Valid(c, h)
    decreases h, 1
  {
    match h
    case Begin => Started(c)
    case Then(b, e) => Do(c, End(c, b), e)
  }

  lemma {:induction false} HistoryKeepsInv(c: Config, h: History)
    requires ConfigOk(c) && Valid(c, h)
    ensures Inv(c, End(c, h))
  {
    hide PermitsKept, EachJobOnce, SlotsPaid, QueueUnpaid, TokensOk, Priority;
    if h.Then? {
      HistoryKeepsInv(c, h.before);
      EventKeepsInv(c, End(c, h.before), h.event);
    } else {
      StartedInv(c);
    }
  }

  /** In every run the permits add up, and neither direction runs more than its ceiling. */
  lemma PermitsAndCeilings(concurrency: nat, download: nat, upload: nat, downBps: nat, upBps: nat, h: History)
    requires Valid(NewConfig(concurrency, download, upload, downBps, upBps), h)
    ensures var c := NewConfig(concurrency, download, upload, downBps, upBps);
            var s := End(c, h);
            && s.free + RunningCount(s.slots) == c.total
            && |s.slots| == |c.dirs|
            && RunningIn(s.slots, c.dirs, Download) <= Clamp(download, 1, c.total)
            && RunningIn(s.slots, c.dirs, Upload) <= Clamp(upload, 1, c.total)
  {
    hide RunningCount, RunningIn, EachJobOnce, QueueUnpaid, Do, Workers;
    var c := NewConfig(concurrency, download, upload, downBps, upBps);
    HistoryKeepsInv(c, h);
    var s := End(c, h);
    RunningInBound(s.slots, c.dirs, Download);
    RunningInBound(s.slots, c.dirs, Upload);
  }

  // ----- Who is served first -----

  /** An idle worker may take a job exactly if it is of its direction and no queued job of that direction goes before it. */
  lemma TakesExactly(c: Config, s: State, w: nat, i: nat)
    requires |s.slots| == |c.dirs| && w < |s.slots| && s.slots[w].Idle? && i < |s.queue|
    ensures CanDo(c, s, Take(w, i)) <==>
              && s.queue[i].dir == c.dirs[w]
              && forall k | 0 <= k < |s.queue| && s.queue[k].dir == c.dirs[w] :: !Ahead(s.queue[k].class_, s.queue[i].class_)
  {
    forall k | 0 <= k < |s.queue|
      ensures Priority(s.queue[k].class_) <= Priority(s.queue[i].class_) <==> !Ahead(s.queue[k].class_, s.queue[i].class_)
    {
      AheadIsHigher(s.queue[k].class_, s.queue[i].class_);
    }
  }

  lemma AheadIsHigher(a: Class, b: Class)
    ensures Ahead(a, b) <==> Priority(b) < Priority(a)
  {
  }

  // ----- Bandwidth -----

  /** The bytes charged to direction `d` over a run. */
  ghost function Charged(c: Config, h: History, d: Dir): nat
    requires Valid(c, h)
  {
    if h.Begin? then 0
    else Charged(c, h.before, d) + Charge(c, End(c, h.before), h.event, d)
  }

  /** What a step charges to direction `d`. */
  ghost function Charge(c: Config, s: State, e: Event, d: Dir): nat
    requires CanDo(c, s, e)
  {
    if e.Pay? && s.slots[e.worker].job.dir == d then Chunk(c, d, s.slots[e.worker].remaining) else 0
  }

  /** How many refills direction `d` has had. */
  function RefillsOf(h: History, d: Dir): nat {
    if h.Begin? then 0 else RefillsOf(h.before, d) + if h.event == Refill(d) then 1 else 0
  }

  /** What direction `d` has been given: a full bucket, and the refills. */
  function Supply(c: Config, d: Dir, refills: nat): nat
    requires d in c.max && d in c.refill
  {
    c.max[d] + c.refill[d] * refills
  }

  lemma SupplyGrows(c: Config, d: Dir, n: nat)
    requires d in c.max && d in c.refill
    ensures Supply(c, d, n + 1) == Supply(c, d, n) + c.refill[d]
  {
  }

  ghost predicate Within(c: Config, h: History, d: Dir)
    requires Valid(c, h)
  {
    && d in c.max && d in c.refill && d in End(c, h).tokens
    && Charged(c, h, d) + End(c, h).tokens[d] <= Supply(c, d, RefillsOf(h, d))
  }

  lemma ChargeStep(c: Config, h: History, d: Dir)
    requires h.Then? && Valid(c, h) && Within(c, h.before, d)
    ensures Within(c, h, d)
  {
    hide CanDo, Do, Charge, Supply;
    SupplyGrows(c, d, RefillsOf(h.before, d));
    TokenStep(c, End(c, h.before), h.event, d);
  }

  /** What a step charges comes out of the bucket, which a refill fills by exactly its amount unless it is full. */
  lemma TokenStep(c: Config, s: State, e: Event, d: Dir)
    requires CanDo(c, s, e) && d in c.max && d in c.refill && d in s.tokens
    ensures d in Do(c, s, e).tokens
    ensures Do(c, s, e).tokens[d] + Charge(c, s, e, d) <= s.tokens[d] + if e == Refill(d) then c.refill[d] else 0
    ensures Do(c, s, e).tokens[d] == c.max[d] ||
            Do(c, s, e).tokens[d] + Charge(c, s, e, d) == s.tokens[d] + if e == Refill(d) then c.refill[d] else 0
  {
    hide Priority;
  }

  lemma {:induction false} ChargesWithin(c: Config, h: History, d: Dir)
    requires ConfigOk(c) && Valid(c, h) && d in c.max
    ensures Within(c, h, d)
  {
    hide CanDo, Do, Within;
    if h.Then? {
      ChargesWithin(c, h.before, d);
      ChargeStep(c, h, d);
    } else {
      StartsWithin(c, d);
    }
  }

  lemma StartsWithin(c: Config, d: Dir)
    requires ConfigOk(c) && d in c.max
    ensures Within(c, Begin, d)
  {
  }

  /**
    A limited direction is never charged for more than one full bucket and a tenth of its bandwidth for each refill,
    whatever the priorities, cancellations and number of workers.
  */
  lemma BandwidthCeiling(concurrency: nat, download: nat, upload: nat, downBps: nat, upBps: nat, h: History, d: Dir)
    requires Valid(NewConfig(concurrency, download, upload, downBps, upBps), h) && Bps(downBps, upBps, d) > 0
    ensures var bps := Bps(downBps, upBps, d);
      Charged(NewConfig(concurrency, download, upload, downBps, upBps), h, d) <=
        Max(bps, MAX_PAGE_REQUEST_BYTES) + Max(bps / 10, 1) * RefillsOf(h, d)
  {
    hide CanDo, Do;
    ChargesWithin(NewConfig(concurrency, download, upload, downBps, upBps), h, d);
  }

  // ----- Where each job is -----

  /** In every run each submitted job is queued, held by one worker, or done: exactly one of these. */
  lemma EachJobIsSomewhere(c: Config, h: History, id: nat)
    requires ConfigOk(c) && Valid(c, h)
    ensures Places(End(c, h), id) == if id in End(c, h).paid then 1 else 0
  {
    hide PermitsKept, SlotsPaid, QueueUnpaid, Places, Do;
    HistoryKeepsInv(c, h);
  }

  /** A job ends once, after all its bytes were charged, and its result is handed over only if it was not cancelled. */
  lemma EndsOnceAndPaid(c: Config, h: History, e: Event)
    requires ConfigOk(c) && Valid(c, Then(h, e)) && (e.Finish? || e.Abort?)
    ensures e.worker < |End(c, h).slots| && End(c, h).slots[e.worker].Running?
    ensures var s, j := End(c, h), End(c, h).slots[e.worker].job;
            && j.id !in s.outcome
            && j.id in s.paid && s.paid[j.id] == (if j.dir in c.max then j.bytes else 0)
            && (Do(c, s, e).outcome[j.id].Delivered? <==> e.Finish? && j.id !in s.cancelled)
  {
    hide PermitsKept, EachJobOnce, QueueUnpaid;
    HistoryKeepsInv(c, h);
    var s := End(c, h);
    OnceStep(c, s, e);
    assert SlotPaid(c, s.slots[e.worker], c.dirs[e.worker], s.paid);
  }

  // ----- Who gets a result -----

  /** The submitter of job `id` has given up. */
  predicate GivenUp(h: History, id: nat) { h.Then? && (h.event == Cancel(id) || GivenUp(h.before, id)) }

  lemma CancelStep(c: Config, s: State, e: Event, id: nat)
    requires CanDo(c, s, e)
    ensures id in Do(c, s, e).cancelled <==> e == Cancel(id) || id in s.cancelled
  {
    hide Priority;
  }

  lemma {:induction false} CancelledExactly(c: Config, h: History, id: nat)
    requires Valid(c, h)
    ensures id in End(c, h).cancelled <==> GivenUp(h, id)
  {
    hide CanDo, Do;
    if h.Then? {
      CancelledExactly(c, h.before, id);
      CancelStep(c, End(c, h.before), h.event, id);
    }
  }

  /**
    A running job is cut short exactly if its submitter has given up, and a job that ends hands its result over exactly if
    it ran to its end and its submitter had not given up.
  */
  lemma DeliveredExactly(c: Config, h: History, w: nat)
    requires ConfigOk(c) && Valid(c, h) && w < |End(c, h).slots| && End(c, h).slots[w].Running?
    ensures var s, id := End(c, h), End(c, h).slots[w].job.id;
      && (CanDo(c, s, Abort(w)) <==> GivenUp(h, id))
      && (CanDo(c, s, Finish(w)) <==> s.slots[w].left == 0)
      && (CanDo(c, s, Abort(w)) ==> Do(c, s, Abort(w)).outcome[id] == Cancelled)
      && (CanDo(c, s, Finish(w)) ==> Do(c, s, Finish(w)).outcome[id] == if GivenUp(h, id) then Cancelled else Delivered)
  {
    CancelledExactly(c, h, End(c, h).slots[w].job.id);
  }

  // ----- A job runs to its end -----

  /** How many steps of each job have been run. */
  ghost function RanAfter(s: State, ran: map<nat, nat>, e: Event): map<nat, nat> {
    if e.Submit? then ran[e.job.id := 0]
    else if e.Work? && e.worker < |s.slots| && s.slots[e.worker].Running? && s.slots[e.worker].job.id in ran
    then ran[s.slots[e.worker].job.id := ran[s.slots[e.worker].job.id] + 1]
    else ran
  }

  ghost function Ran(c: Config, h: History): map<nat, nat>
    requires Valid(c, h)
  {
    if h.Begin? then map[] else RanAfter(End(c, h.before), Ran(c, h.before), h.event)
  }

  ghost predicate SlotRan(x: Slot, ran: map<nat, nat>) {
    !x.Idle? ==> x.job.id in ran && ran[x.job.id] + (if x.Running? then x.left else x.job.work) == x.job.work
  }

  ghost predicate RanOk(s: State, ran: map<nat, nat>) {
    && (forall i | 0 <= i < |s.queue| :: s.queue[i].id in ran && ran[s.queue[i].id] == 0)
    && (forall w | 0 <= w < |s.slots| :: SlotRan(s.slots[w], ran))
    && ran.Keys == s.paid.Keys
  }

  lemma RanStep(c: Config, s: State, ran: map<nat, nat>, e: Event)
    requires EachJobOnce(s) && CanDo(c, s, e) && RanOk(s, ran) && !e.Work?
    ensures RanOk(Do(c, s, e), RanAfter(s, ran, e))
  {
    hide EachJobOnce, Priority;
    var t := Do(c, s, e);
    var now := RanAfter(s, ran, e);
    forall w | 0 <= w < |t.slots| ensures SlotRan(t.slots[w], now) { assert SlotRan(s.slots[w], ran); }
    forall i | 0 <= i < |t.queue| ensures t.queue[i].id in now && now[t.queue[i].id] == 0 {
      if e.Take? { assert t.queue[i] == s.queue[if i < e.index then i else i + 1]; }
    }
  }

  lemma RanWork(c: Config, s: State, ran: map<nat, nat>, w: nat)
    requires EachJobOnce(s) && CanDo(c, s, Work(w)) && RanOk(s, ran)
    ensures RanOk(Do(c, s, Work(w)), RanAfter(s, ran, Work(w)))
  {
    hide EachJobOnce;
    var t := Do(c, s, Work(w));
    var now := RanAfter(s, ran, Work(w));
    assert SlotRan(s.slots[w], ran);
    forall v | 0 <= v < |t.slots| ensures SlotRan(t.slots[v], now) {
      assert SlotRan(s.slots[v], ran);
      if v != w && !s.slots[v].Idle? { HeldByOne(s, v, w); }
    }
    forall i | 0 <= i < |t.queue| ensures t.queue[i].id in now && now[t.queue[i].id] == 0 { QueuedIsNotHeld(s, i, w); }
  }

  lemma {:induction false} HistoryRan(c: Config, h: History)
    requires ConfigOk(c) && Valid(c, h)
    ensures RanOk(End(c, h), Ran(c, h))
  {
    hide PermitsKept, EachJobOnce, SlotsPaid, QueueUnpaid, TokensOk, Priority, RanOk, CanDo, Do, RanAfter;
    if h.Then? {
      HistoryRan(c, h.before);
      HistoryKeepsInv(c, h.before);
      if h.event.Work? {
        RanWork(c, End(c, h.before), Ran(c, h.before), h.event.worker);
      } else {
        RanStep(c, End(c, h.before), Ran(c, h.before), h.event);
      }
    } else {
      NothingRan(c);
    }
  }

  lemma NothingRan(c: Config)
    ensures RanOk(Started(c), map[])
  {
  }

  /** A job that finishes has been run to its end, no further and once; one that has not begun has not been run at all. */
  lemma RunsToItsEnd(c: Config, h: History, w: nat)
    requires ConfigOk(c) && Valid(c, Then(h, Finish(w)))
    ensures var j := End(c, h).slots[w].job; j.id in Ran(c, h) && Ran(c, h)[j.id] == j.work
  {
    hide Priority;
    HistoryRan(c, h);
    assert SlotRan(End(c, h).slots[w], Ran(c, h));
  }

  /** An outcome is final, and so is what was charged for it. */
  lemma OutcomeIsFinal(c: Config, h: History, e: Event, id: nat)
    requires ConfigOk(c) && Valid(c, Then(h, e)) && id in End(c, h).outcome
    ensures id in Do(c, End(c, h), e).outcome && Do(c, End(c, h), e).outcome[id] == End(c, h).outcome[id]
    ensures id in End(c, h).paid && id in Do(c, End(c, h), e).paid
    ensures Do(c, End(c, h), e).paid[id] == End(c, h).paid[id]
  {
    hide PermitsKept, QueueUnpaid, Held, Queued, EachJobOnce;
    HistoryKeepsInv(c, h);
    var s := End(c, h);
    OnePlace(s, id);
    OnceStep(c, s, e);
    if e.Pay? { HeldAtLeast(s.slots, e.worker); }
  }

  // ----- Draining -----

  function JobCost(j: Job): nat { j.bytes + j.work + 4 }

  function SlotCost(x: Slot): nat {
    match x
    case Idle => 0
    case Paying(j, r) => r + j.work + 3
    case Waiting(j) => j.work + 2
    case Running(_, left) => left + 1
  }

  function QueueCost(q: seq<Job>): nat { if q == [] then 0 else JobCost(q[0]) + QueueCost(q[1..]) }

  function SlotsCost(slots: seq<Slot>): nat {
    if slots == [] then 0 else SlotCost(slots[0]) + SlotsCost(slots[1..])
  }

  /** What is left to do. */
  function Cost(s: State): nat { QueueCost(s.queue) + SlotsCost(s.slots) }

  lemma {:induction false} SlotsCostUpdate(slots: seq<Slot>, w: nat, x: Slot)
    requires w < |slots|
    ensures SlotsCost(slots[w := x]) + SlotCost(slots[w]) == SlotsCost(slots) + SlotCost(x)
  {
    var t := slots[w := x];
    if w == 0 {
      assert t[1..] == slots[1..];
    } else {
      SlotsCostUpdate(slots[1..], w - 1, x);
      assert t[1..] == slots[1..][w - 1 := x];
    }
  }

  lemma {:induction false} QueueCostRemove(q: seq<Job>, i: nat)
    requires i < |q|
    ensures QueueCost(WithoutIndex(q, i)) + JobCost(q[i]) == QueueCost(q)
  {
    if i == 0 {
      assert WithoutIndex(q, 0) == q[1..];
    } else {
      QueueCostRemove(q[1..], i - 1);
      assert WithoutIndex(q, i) == [q[0]] + WithoutIndex(q[1..], i - 1);
    }
  }

  predicate IsWorkerStep(e: Event) { !e.Submit? && !e.Cancel? && !e.Refill? }

  /** Every step of a worker leaves less to do; giving up and refilling leave as much. */
  lemma StepCost(c: Config, s: State, e: Event)
    requires ConfigOk(c) && CanDo(c, s, e)
    ensures IsWorkerStep(e) ==> Cost(Do(c, s, e)) < Cost(s)
    ensures e.Cancel? || e.Refill? ==> Cost(Do(c, s, e)) == Cost(s)
  {
    hide QueueCost, SlotsCost, Priority;
    if IsWorkerStep(e) {
      SlotsCostUpdate(s.slots, e.worker, Do(c, s, e).slots[e.worker]);
      if e.Take? { QueueCostRemove(s.queue, e.index); }
    }
  }

  /** How many tokens are missing. */
  function Missing(c: Config, s: State, d: Dir): nat {
    if d in c.max && d in s.tokens && s.tokens[d] < c.max[d] then c.max[d] - s.tokens[d] else 0
  }

  function Deficit(c: Config, s: State): nat { Missing(c, s, Download) + Missing(c, s, Upload) }

  lemma RefillFills(c: Config, s: State, d: Dir)
    requires ConfigOk(c) && CanDo(c, s, Refill(d)) && s.tokens[d] < c.max[d]
    ensures Deficit(c, Do(c, s, Refill(d))) < Deficit(c, s)
  {
  }

  /** The best queued job of the direction of job `i`. */
  lemma Best(q: seq<Job>, i: nat) returns (k: nat)
    requires i < |q|
    ensures k < |q| && q[k].dir == q[i].dir
    ensures forall m | 0 <= m < |q| && q[m].dir == q[i].dir :: Priority(q[m].class_) <= Priority(q[k].class_)
  {
    hide Priority;
    k := i;
    var m := 0;
    while m < |q|
      invariant 0 <= m <= |q| && k < |q| && q[k].dir == q[i].dir
      invariant forall x | 0 <= x < m && q[x].dir == q[i].dir :: Priority(q[x].class_) <= Priority(q[k].class_)
    {
      if q[m].dir == q[i].dir && Priority(q[m].class_) > Priority(q[k].class_) { k := m; }
      m := m + 1;
    }
  }

  lemma {:induction false} AllIdleCost(slots: seq<Slot>)
    requires forall w | 0 <= w < |slots| :: slots[w].Idle?
    ensures SlotsCost(slots) == 0
  {
    if slots != [] {
      forall w | 0 <= w < |slots[1..]| ensures slots[1..][w].Idle? { assert slots[1..][w] == slots[w + 1]; }
      AllIdleCost(slots[1..]);
    }
  }

  /** A busy worker that is not yet running can go on: claim, pay, or have its bucket refilled. */
  lemma BusyCanGoOn(c: Config, s: State, w: nat) returns (e: Event)
    requires ConfigOk(c) && Inv(c, s) && w < |s.slots| && !s.slots[w].Idle?
    requires forall v | 0 <= v < |s.slots| :: !s.slots[v].Running?
    ensures CanDo(c, s, e) && (IsWorkerStep(e) || (e.Refill? && s.tokens[e.dir] < c.max[e.dir]))
  {
    hide RunningCount, EachJobOnce, QueueUnpaid, Priority;
    assert SlotPaid(c, s.slots[w], c.dirs[w], s.paid);
    if RunningCount(s.slots) > 0 { RunningSome(s.slots); }
    var x := s.slots[w];
    if x.Waiting? || (x.Paying? && x.remaining == 0) {
      e := Claim(w);
    } else if Chunk(c, x.job.dir, x.remaining) <= s.tokens[x.job.dir] {
      e := Pay(w);
    } else {
      e := Refill(x.job.dir);
    }
  }

  /** Unless all is done, some worker can step, or a bucket some worker waits for can be refilled. */
  lemma CanGoOn(c: Config, s: State) returns (e: Event)
    requires ConfigOk(c) && Inv(c, s) && Cost(s) > 0
    ensures CanDo(c, s, e) && (IsWorkerStep(e) || (e.Refill? && s.tokens[e.dir] < c.max[e.dir]))
  {
    hide RunningCount, EachJobOnce, QueueUnpaid, PermitsKept, SlotsCost, Priority;
    if w :| 0 <= w < |s.slots| && s.slots[w].Running? {
      e := if s.slots[w].left > 0 then Work(w) else Finish(w);
    } else if w :| 0 <= w < |s.slots| && !s.slots[w].Idle? {
      e := BusyCanGoOn(c, s, w);
    } else {
      AllIdleCost(s.slots);
      assert s.queue != [];
      var k := Best(s.queue, 0);
      var d := s.queue[k].dir;
      assert d in c.dirs;
      var w :| 0 <= w < |c.dirs| && c.dirs[w] == d;
      e := Take(w, k);
    }
  }

  /** The states along a continuation. */
  ghost predicate Runs(c: Config, s: State, es: seq<Event>)
    decreases es, 0
  {
    es == [] || (CanDo(c, s, es[0]) && Runs(c, Do(c, s, es[0]), es[1..]))
  }

  ghost function After(c: Config, s: State, es: seq<Event>): State
    requires Runs(c, s, es)
    decreases es, 1
  {
    if es == [] then s else After(c, Do(c, s, es[0]), es[1..])
  }

  /**
    From every reachable state there is a way, by steps of the workers and refills alone, to a state with nothing
    queued and every worker idle; and no other way loses ground, since every worker step leaves less to do.
  */
  lemma {:induction false} Drains(c: Config, s: State) returns (es: seq<Event>)
    requires ConfigOk(c) && Inv(c, s)
    ensures Runs(c, s, es) && (forall e | e in es :: IsWorkerStep(e) || e.Refill?)
    ensures Cost(After(c, s, es)) == 0 && Inv(c, After(c, s, es))
    decreases Cost(s), Deficit(c, s)
  {
    hide Inv, Cost, Deficit, Priority, CanDo, Do;
    if Cost(s) == 0 {
      es := [];
    } else {
      var e := CanGoOn(c, s);
      var t := Do(c, s, e);
      StepCost(c, s, e);
      if e.Refill? { RefillFills(c, s, e.dir); }
      EventKeepsInv(c, s, e);
      var rest := Drains(c, t);
      es := [e] + rest;
      assert es[1..] == rest;
    }
  }

  function WorkerSteps(es: seq<Event>): nat {
    if es == [] then 0 else (if IsWorkerStep(es[0]) then 1 else 0) + WorkerSteps(es[1..])
  }

  /** Every run in which nothing is submitted, whatever else happens in it, has at most as many worker steps as are left to do. */
  lemma {:induction false} WorkerStepsBounded(c: Config, s: State, es: seq<Event>)
    requires ConfigOk(c) && Runs(c, s, es) && forall e | e in es :: !e.Submit?
    ensures WorkerSteps(es) + Cost(After(c, s, es)) <= Cost(s)
    decreases es
  {
    hide Cost, CanDo, Do, Priority;
    if es != [] {
      StepCost(c, s, es[0]);
      WorkerStepsBounded(c, Do(c, s, es[0]), es[1..]);
    }
  }

  /** No worker can step. */
  ghost predicate Stopped(c: Config, s: State) { forall e: Event | IsWorkerStep(e) :: !CanDo(c, s, e) }

  /** Every bucket is full. */
  predicate Full(c: Config, s: State) { forall d | d in c.max && d in s.tokens :: s.tokens[d] >= c.max[d] }

  /** Once the buckets are full, the workers stop only when everything is done. */
  lemma StoppedIsDrained(c: Config, s: State)
    requires ConfigOk(c) && Inv(c, s) && Full(c, s) && Stopped(c, s)
    ensures Cost(s) == 0
  {
    hide Inv, Cost, Priority;
    if Cost(s) > 0 {
      var e := CanGoOn(c, s);
    }
  }

  /** With nothing left to do, nothing is queued and every worker is idle. */
  lemma {:induction false} DrainedIsIdle(slots: seq<Slot>)
    requires SlotsCost(slots) == 0
    ensures forall w | 0 <= w < |slots| :: slots[w].Idle?
  {
    if slots != [] { DrainedIsIdle(slots[1..]); }
  }

  /** So every job submitted has an outcome. */
  lemma DrainedIsDone(c: Config, s: State, id: nat)
    requires Inv(c, s) && Cost(s) == 0 && id in s.paid
    ensures id in s.outcome && s.free == c.total
  {
    hide QueueUnpaid, SlotsPaid, SlotsCost, Held, Queued, RunningCount, EachJobOnce;
    assert s.queue == [];
    DrainedIsIdle(s.slots);
    NoneHeld(s.slots, id);
    NoneRunning(s.slots);
    OnePlace(s, id);
    assert Queued([], id) == 0 by { NothingQueued(id); }
  }

  lemma NothingQueued(id: nat)
    ensures Queued([], id) == 0
  {
  }

  // ----- The charging loop -----

  function Sum(s: seq<nat>): nat { if s == [] then 0 else s[0] + Sum(s[1..]) }

  lemma {:induction false} SumAppend(s: seq<nat>, x: nat)
    ensures Sum(s + [x]) == Sum(s) + x
  {
    if s == [] {
      assert s + [x] == [x] && [x][1..] == [];
    } else {
      SumAppend(s[1..], x);
      assert (s + [x])[1..] == s[1..] + [x];
    }
  }

  /** The tokens acquired for a payload: rounds of at most `max`, none empty, adding up to exactly the payload. */
  method ChargeRounds(bytes: nat, max: nat) returns (rounds: seq<nat>)
    requires max > 0
    ensures Sum(rounds) == bytes
    ensures forall i | 0 <= i < |rounds| :: 0 < rounds[i] <= max
    ensures forall i | 0 <= i < |rounds| - 1 :: rounds[i] == max
  {
    rounds := [];
    var remaining := bytes;
    while remaining > 0
      invariant 0 <= remaining <= bytes && Sum(rounds) + remaining == bytes
      invariant forall i | 0 <= i < |rounds| :: 0 < rounds[i] <= max
      invariant remaining > 0 ==> forall i | 0 <= i < |rounds| :: rounds[i] == max
      invariant forall i | 0 <= i < |rounds| - 1 :: rounds[i] == max
    {
      var chunk := if remaining < max then remaining else max;
      SumAppend(rounds, chunk);
      rounds := rounds + [chunk];
      remaining := remaining - chunk;
    }
  }
}
