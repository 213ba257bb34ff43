/**
  Exactly when a node is left holding the cluster lease after its mount is over, and the runs in which a hypothesis about
  the configuration fails.
*/
module LeaseStrands {
  import opened Common
  import opened Leases
  import opened LeaseRuns

  // ----- Holding the cluster lease while not mounted -----

  ghost predicate Holds(c: Config, w: World, i: nat) { w.lease.Some? && HeldBy(w.lease.value, Name(c, i)) }

  /** Node `i` made request `q`. */
  predicate Made(w: World, q: nat, i: nat) { q in w.requests && w.requests[q].node == i }

  /** Node `i` is waiting for the answer to request `q`. */
  predicate Waits(w: World, q: nat, i: nat) {
    Made(w, q, i) && i in w.nodes && w.nodes[i].call == Sent(w.requests[q].op, q)
  }

  /**
    The ways a mount can end, or a node die, without the cluster lease being given back: a failed break of the blob lease,
    a crash, and a release that fails, is lost or is given up.
  */
  ghost predicate Quits(c: Config, w: World, e: Event, i: nat)
    requires CanDo(c, w, e)
  {
    || e == Crash(i)
    || (e.BreakFails? && e.node == i)
    || (e.GetFails? && e.node == i && e.op.Release?)
    || ((e.Lose? || e.GiveUp?) && Waits(w, e.request, i) && w.requests[e.request].op.Release?)
  }

  /** The lease becomes the node's, or is renewed, without the node hearing of it: nobody waits, or the answer is lost. */
  ghost predicate Unheard(c: Config, w: World, e: Event, i: nat)
    requires CanDo(c, w, e)
  {
    && e.Land? && Made(w, e.request, i) && !w.requests[e.request].op.Release? && Applies(w.lease, w.requests[e.request])
    && (!Waits(w, e.request, i) || (w.requests[e.request].op.TryAcquire? && !e.heard))
  }

  /** The lease is given back, or taken by another node. */
  ghost predicate Moves(c: Config, w: World, e: Event, i: nat)
    requires CanDo(c, w, e)
  {
    e.Land? && Applies(w.lease, w.requests[e.request]) && w.requests[e.request].holder != Some(Name(c, i))
  }

  /**
    Node `i` was left with the lease: it quit while it held it, or the lease became its own unheard, or it held it before
    the run; and since then the lease has not moved to anybody else.
  */
  ghost predicate Left(c: Config, h: History, i: nat)
    requires Valid(c, h)
  {
    match h
    case Begin(w) => Holds(c, w, i)
    case Then(b, e) =>
      var w := End(c, b);
      || (Quits(c, w, e, i) && Holds(c, w, i))
      || Unheard(c, w, e, i)
      || (Left(c, b, i) && !Moves(c, w, e, i))
  }

  // ----- Calls stay in order -----

  /** A call belongs to its phase, and a request waited for is in flight. */
  predicate CallOk(c: Config, w: World, i: nat)
    requires i in w.nodes
  {
    var n := w.nodes[i];
    && (!n.call.NoCall? ==> MayCall(n, n.call.op, i in c.clustered))
    && (n.call.Sent? ==> Made(w, n.call.request, i) && w.requests[n.call.request].op == n.call.op)
  }

  ghost predicate CallsOk(c: Config, w: World) { forall i | i in w.nodes :: CallOk(c, w, i) }

  /** A node that changes alone, and sends nothing. */
  lemma OneNodeKeepsCalls(c: Config, w: World, t: World, j: nat)
    requires CallsOk(c, w) && j in w.nodes && j in t.nodes && t.nodes == w.nodes[j := t.nodes[j]] && t.requests == w.requests
    requires CallOk(c, t, j)
    ensures CallsOk(c, t)
  {
    forall i | i in t.nodes ensures CallOk(c, t, i) {
      if i != j { assert CallOk(c, w, i); }
    }
  }

  lemma AnswerKeepsCalls(c: Config, w: World, q: nat, ok: bool)
    requires CallsOk(c, w) && q in w.requests && w.requests[q].node in w.nodes
    ensures CallsOk(c, Answer(w, q, ok))
  {
    var t := Answer(w, q, ok);
    forall i | i in t.nodes ensures CallOk(c, t, i) { assert CallOk(c, w, i); }
  }

  lemma LeaseIsNoCall(c: Config, w: World, lease: Option<Lease>)
    requires CallsOk(c, w)
    ensures CallsOk(c, w.(lease := lease))
  {
    forall i | i in w.nodes ensures CallOk(c, w.(lease := lease), i) { assert CallOk(c, w, i); }
  }

  lemma DecideKeepsCalls(c: Config, w: World, j: nat, q: nat)
    requires CallsOk(c, w) && CanDo(c, w, Decide(j, q))
    ensures CallsOk(c, Do(c, w, Decide(j, q)))
  {
    hide Decision;
    var t := Do(c, w, Decide(j, q));
    forall i | i in t.nodes ensures CallOk(c, t, i) { assert CallOk(c, w, i) && CallOk(c, w, j); }
  }

  lemma CallKeepsCalls(c: Config, w: World, e: Event)
    requires CallsOk(c, w) && CanDo(c, w, e) && (e.Start? || e.Get? || e.GetFails? || e.GiveUp?)
    ensures CallsOk(c, Do(c, w, e))
  {
    hide CallsOk;
    OneNodeKeepsCalls(c, w, Do(c, w, e), if e.GiveUp? then w.requests[e.request].node else e.node);
  }

  lemma ClusterKeepsCalls(c: Config, w: World, e: Event)
    requires CallsOk(c, w) && CanDo(c, w, e) && OfCluster(e)
    ensures CallsOk(c, Do(c, w, e))
  {
    hide Answer, Decision, Applies, CallsOk;
    match e {
      case Tick => assert CallsOk(c, w.(now := w.now + 1)) by { TickIsNoCall(c, w); }
      case Land(q, heard) =>
        var r := w.requests[q];
        if Applies(w.lease, r) {
          LeaseIsNoCall(c, w, Some(Stored(w.lease, r)));
          AnswerKeepsCalls(c, w.(lease := Some(Stored(w.lease, r))), q, heard);
        } else {
          AnswerKeepsCalls(c, w, q, false);
        }
      case Lose(q) => AnswerKeepsCalls(c, w, q, false);
      case Decide(j, q) => DecideKeepsCalls(c, w, j, q);
      case _ => CallKeepsCalls(c, w, e);
    }
  }

  lemma TickIsNoCall(c: Config, w: World)
    requires CallsOk(c, w)
    ensures CallsOk(c, w.(now := w.now + 1))
  {
    forall i | i in w.nodes ensures CallOk(c, w.(now := w.now + 1), i) { assert CallOk(c, w, i); }
  }

  lemma BlobKeepsCalls(c: Config, w: World, e: Event)
    requires CallsOk(c, w) && CanDo(c, w, e) && !OfCluster(e)
    ensures CallsOk(c, Do(c, w, e))
  {
    hide BlobAfter;
    var t := Do(c, w, e);
    forall i | i in t.nodes ensures CallOk(c, t, i) { assert CallOk(c, w, i); }
  }

  lemma {:induction false} HistoryKeepsCalls(c: Config, h: History)
    requires Valid(c, h)
    ensures CallsOk(c, End(c, h))
  {
    hide CanDo, Do;
    if h.Then? {
      HistoryKeepsCalls(c, h.before);
      if OfCluster(h.event) {
        ClusterKeepsCalls(c, End(c, h.before), h.event);
      } else {
        BlobKeepsCalls(c, End(c, h.before), h.event);
      }
    }
  }

  // ----- A node that was not left with the lease is still at work with it -----

  /** While node `i` holds the lease it is clustered and past joining, and its call started from the lease as it is. */
  ghost predicate AtWork(c: Config, w: World, i: nat) {
    i in w.nodes && (Holds(c, w, i) ==>
      && i in c.clustered && !w.nodes[i].phase.Down? && !w.nodes[i].phase.Joining?
      && (w.nodes[i].call.Read? ==> w.lease == w.nodes[i].call.lease)
      && (w.nodes[i].call.Sent? ==> Made(w, w.nodes[i].call.request, i) && w.lease == w.requests[w.nodes[i].call.request].base))
  }

  /** The lease becomes the node's own, or is renewed, and the node hears of it. */
  lemma OwnLands(c: Config, w: World, q: nat, heard: bool, i: nat)
    requires CallsOk(c, w) && Waits(w, q, i) && !w.requests[q].op.Release?
    requires PhaseOk(c, i, w.nodes[i].phase, w.blob.owners) && (w.requests[q].op.TryAcquire? ==> heard)
    ensures AtWork(c, Answer(w.(lease := Some(Stored(w.lease, w.requests[q]))), q, heard), i)
  {
    assert CallOk(c, w, i);
  }

  /** An applied swap: the lease moves away, or it becomes the node's and the node is told. */
  lemma AppliedAtWork(c: Config, w: World, q: nat, heard: bool, i: nat)
    requires Distinct(c) && RequestsOk(c, w) && CallsOk(c, w) && CanDo(c, w, Land(q, heard)) && Applies(w.lease, w.requests[q])
    requires i in w.nodes && PhaseOk(c, i, w.nodes[i].phase, w.blob.owners) && !Unheard(c, w, Land(q, heard), i)
    ensures AtWork(c, Do(c, w, Land(q, heard)), i)
  {
    hide CallsOk;
    assert RequestOk(c, w.requests[q], w.lease, w.now);
    var t := Do(c, w, Land(q, heard));
    assert t.lease == Some(Stored(w.lease, w.requests[q]));
    if Holds(c, t, i) { OwnLands(c, w, q, heard, i); }
  }

  /** The request is refused, or lost, and the lease stays. */
  lemma AnswerAtWork(c: Config, w: World, q: nat, i: nat)
    requires CallsOk(c, w) && AtWork(c, w, i) && q in w.requests && w.requests[q].node in w.nodes
    requires Waits(w, q, i) && Holds(c, w, i) ==> w.requests[q].op.Renew? || w.requests[q].op.TryAcquire?
    ensures AtWork(c, Answer(w, q, false), i)
  {
    assert CallOk(c, w, i);
  }

  lemma RefusedAtWork(c: Config, w: World, q: nat, heard: bool, i: nat)
    requires CallsOk(c, w) && AtWork(c, w, i) && CanDo(c, w, Land(q, heard)) && !Applies(w.lease, w.requests[q])
    ensures AtWork(c, Do(c, w, Land(q, heard)), i)
  {
    AnswerAtWork(c, w, q, i);
  }

  lemma DecideAtWork(c: Config, w: World, j: nat, q: nat, i: nat)
    requires CallsOk(c, w) && AtWork(c, w, i) && CanDo(c, w, Decide(j, q))
    ensures AtWork(c, Do(c, w, Decide(j, q)), i)
  {
    assert CallOk(c, w, i);
  }

  lemma CallAtWork(c: Config, w: World, e: Event, i: nat)
    requires CallsOk(c, w) && AtWork(c, w, i) && CanDo(c, w, e) && (e.Tick? || e.Start? || e.Get? || e.GetFails? || e.GiveUp?)
    requires !(Quits(c, w, e, i) && Holds(c, w, i))
    ensures AtWork(c, Do(c, w, e), i)
  {
    assert CallOk(c, w, i);
  }

  lemma ClusterAtWork(c: Config, w: World, e: Event, i: nat)
    requires Distinct(c) && CanDo(c, w, e) && OfCluster(e) && RequestsOk(c, w) && CallsOk(c, w)
    requires i in w.nodes && PhaseOk(c, i, w.nodes[i].phase, w.blob.owners)
    requires AtWork(c, w, i) || Moves(c, w, e, i)
    requires !(Quits(c, w, e, i) && Holds(c, w, i)) && !Unheard(c, w, e, i)
    ensures AtWork(c, Do(c, w, e), i)
  {
    hide AtWork, CallsOk, RequestsOk, PhaseOk, Do, Quits, Unheard, Holds;
    match e {
      case Land(q, heard) =>
        if Applies(w.lease, w.requests[q]) { AppliedAtWork(c, w, q, heard, i); } else { RefusedAtWork(c, w, q, heard, i); }
      case Lose(q) => LostAtWork(c, w, q, i);
      case Decide(j, q) => DecideAtWork(c, w, j, q, i);
      case _ => CallAtWork(c, w, e, i);
    }
  }

  lemma LostAtWork(c: Config, w: World, q: nat, i: nat)
    requires CallsOk(c, w) && AtWork(c, w, i) && CanDo(c, w, Lose(q)) && !(Quits(c, w, Lose(q), i) && Holds(c, w, i))
    ensures AtWork(c, Do(c, w, Lose(q)), i)
  {
    AnswerAtWork(c, w, q, i);
  }

  lemma BlobAtWork(c: Config, w: World, e: Event, i: nat)
    requires CanDo(c, w, e) && !OfCluster(e) && AtWork(c, w, i) && !(Quits(c, w, e, i) && Holds(c, w, i))
    ensures AtWork(c, Do(c, w, e), i)
  {
    hide BlobAfter;
  }

  lemma {:induction false} NotLeftIsAtWork(c: Config, h: History, i: nat)
    requires Distinct(c) && OneClock(c) && Valid(c, h) && i in End(c, h).nodes && !Left(c, h, i)
    ensures AtWork(c, End(c, h), i)
  {
    hide CanDo, Do, Quits, Unheard, Moves, RequestsOk, CallsOk, NodesOk, LogOk, PhaseOk;
    if h.Then? {
      var w := End(c, h.before);
      StepKeepsNodes(c, w, h.event);
      HistoryKeepsInv(c, h.before);
      HistoryKeepsCalls(c, h.before);
      PhaseInOrder(c, h.before, i);
      if !Left(c, h.before, i) { NotLeftIsAtWork(c, h.before, i); }
      if OfCluster(h.event) {
        ClusterAtWork(c, w, h.event, i);
      } else {
        OnlyLandMoves(c, w, h.event, i);
        BlobAtWork(c, w, h.event, i);
      }
    }
  }

  lemma OnlyLandMoves(c: Config, w: World, e: Event, i: nat)
    requires CanDo(c, w, e)
    ensures Moves(c, w, e, i) ==> OfCluster(e)
  {
  }

  /** What is left with a node stays with it until it moves. */
  lemma LeftStep(c: Config, w: World, e: Event, i: nat)
    requires CanDo(c, w, e)
    requires (Quits(c, w, e, i) && Holds(c, w, i)) || (Holds(c, w, i) && !Moves(c, w, e, i))
    ensures Holds(c, Do(c, w, e), i)
  {
    hide Do;
    if Do(c, w, e).lease != w.lease { OnlyLandChangesLease(c, w, e); }
  }

  lemma UnheardHolds(c: Config, w: World, e: Event, i: nat)
    requires CanDo(c, w, e) && RequestsOk(c, w) && Unheard(c, w, e, i)
    ensures Holds(c, Do(c, w, e), i)
  {
    assert RequestOk(c, w.requests[e.request], w.lease, w.now);
  }

  lemma {:induction false} LeftHolds(c: Config, h: History, i: nat)
    requires OneClock(c) && Valid(c, h) && Left(c, h, i)
    ensures Holds(c, End(c, h), i)
  {
    hide CanDo, Do, Quits, Unheard, Moves, RequestsOk, NodesOk, LogOk, Holds;
    if h.Then? {
      var w := End(c, h.before);
      HistoryKeepsInv(c, h.before);
      if Unheard(c, w, h.event, i) {
        UnheardHolds(c, w, h.event, i);
      } else {
        if Left(c, h.before, i) { LeftHolds(c, h.before, i); }
        LeftStep(c, w, h.event, i);
      }
    }
  }

  /**
    In every run, a node that is neither mounted nor past joining holds the cluster lease if and only if it was left with
    it: its break of the blob lease failed, it crashed, its release failed, or the lease became its own without its hearing
    of it; and nobody has taken it, nor has it been given back, since.
  */
  lemma DownHoldsExactly(c: Config, h: History, i: nat)
    requires Distinct(c) && OneClock(c) && Valid(c, h) && i in End(c, h).nodes
    requires End(c, h).nodes[i].phase.Down? || End(c, h).nodes[i].phase.Joining?
    ensures Holds(c, End(c, h), i) <==> Left(c, h, i)
  {
    if Left(c, h, i) { LeftHolds(c, h, i); } else { NotLeftIsAtWork(c, h, i); }
  }

  // ----- Runs that go wrong -----

  ghost predicate Reaches(c: Config, h: History, w: World) { Valid(c, h) && End(c, h) == w }

  ghost predicate Steps(c: Config, w: World, e: Event, v: World) { CanDo(c, w, e) && v == Do(c, w, e) }

  lemma Go(c: Config, h: History, w: World, e: Event, v: World) returns (g: History)
    requires Reaches(c, h, w) && Steps(c, w, e, v)
    ensures Reaches(c, g, v) && g == Then(h, e)
  {
    g := Then(h, e);
  }

  /** What node `i` stores when it claims the lease. */
  function Claimed(c: Config, w: World, i: nat): Lease {
    Lease(Some(Name(c, i)), Some(Clock(c, i, w.now)), if w.lease.None? then 0 else w.lease.value.version + 1)
  }

  function Asking(c: Config, w: World, i: nat): Request {
    Request(i, TryAcquire, w.lease, Some(Name(c, i)), Some(Clock(c, i, w.now)))
  }

  /** Node `i` may claim the lease as it stands. */
  predicate MayClaim(c: Config, w: World, i: nat) {
    i in c.timeouts && Decision(TryAcquire, w.lease, Name(c, i), c.timeouts[i], Clock(c, i, w.now)) == Some(Some(Name(c, i)))
  }

  lemma SetTwice(w: World, i: nat, a: Node, b: Node)
    ensures SetNode(SetNode(w, i, a), i, b) == SetNode(w, i, b)
  {
    assert w.nodes[i := a][i := b] == w.nodes[i := b];
  }

  lemma StartSteps(c: Config, w: World, i: nat)
    requires i in c.clustered && i in w.nodes && w.nodes[i] == Node(Down, NoCall)
    ensures Steps(c, w, Start(i), SetNode(w, i, Node(Joining, NoCall)))
    ensures Steps(c, SetNode(w, i, Node(Joining, NoCall)), Get(i, TryAcquire), SetNode(w, i, Node(Joining, Read(TryAcquire, w.lease))))
  {
    SetTwice(w, i, Node(Joining, NoCall), Node(Joining, Read(TryAcquire, w.lease)));
  }

  lemma DecideSteps(c: Config, w: World, i: nat)
    requires i in w.nodes && w.requests == map[] && MayClaim(c, w, i)
    ensures Steps(c, SetNode(w, i, Node(Joining, Read(TryAcquire, w.lease))), Decide(i, 9),
                  SetNode(w, i, Node(Joining, Sent(TryAcquire, 9))).(requests := map[9 := Asking(c, w, i)]))
  {
    hide Decision;
    SetTwice(w, i, Node(Joining, Read(TryAcquire, w.lease)), Node(Joining, Sent(TryAcquire, 9)));
  }

  lemma LandSteps(c: Config, w: World, i: nat)
    requires i in w.nodes && w.requests == map[]
    ensures Steps(c, SetNode(w, i, Node(Joining, Sent(TryAcquire, 9))).(requests := map[9 := Asking(c, w, i)]), Land(9, true),
                  SetNode(w, i, Node(Trying(false), NoCall)).(lease := Some(Claimed(c, w, i))))
  {
    SetTwice(w, i, Node(Joining, Sent(TryAcquire, 9)), Node(Trying(false), NoCall));
    assert map[9 := Asking(c, w, i)] - {9} == map[];
  }

  /** Node `i` acquires the cluster lease, without a failure. */
  lemma Acquire(c: Config, h: History, w: World, i: nat) returns (g: History)
    requires Reaches(c, h, w)
    requires i in c.clustered && i in w.nodes && w.nodes[i] == Node(Down, NoCall) && w.requests == map[] && MayClaim(c, w, i)
    ensures Reaches(c, g, SetNode(w, i, Node(Trying(false), NoCall)).(lease := Some(Claimed(c, w, i))))
  {
    hide Reaches, Steps;
    StartSteps(c, w, i);
    DecideSteps(c, w, i);
    LandSteps(c, w, i);
    g := Go(c, h, w, Start(i), SetNode(w, i, Node(Joining, NoCall)));
    g := Go(c, g, SetNode(w, i, Node(Joining, NoCall)), Get(i, TryAcquire), SetNode(w, i, Node(Joining, Read(TryAcquire, w.lease))));
    var sent := SetNode(w, i, Node(Joining, Sent(TryAcquire, 9))).(requests := map[9 := Asking(c, w, i)]);
    g := Go(c, g, SetNode(w, i, Node(Joining, Read(TryAcquire, w.lease))), Decide(i, 9), sent);
    g := Go(c, g, sent, Land(9, true), SetNode(w, i, Node(Trying(false), NoCall)).(lease := Some(Claimed(c, w, i))));
  }

  /** Two nodes, at time 0, with what they are doing, the lease, and the blob lease ids issued. */
  function Two(a: Phase, b: Phase, lease: Option<Lease>, owners: seq<nat>, active: bool): World {
    World(0, lease, map[], map[1 := Node(a, NoCall), 2 := Node(b, NoCall)], Blob(owners, active, active, multiset{}, []))
  }

  /** Node 1 has only the blob lease. */
  function Mixed(): Config { Config({2}, map[1 := 60, 2 := 60], map[], map[]) }

  lemma SetFirst(a: Phase, b: Phase, lease: Option<Lease>, owners: seq<nat>, active: bool, p: Phase)
    ensures SetNode(Two(a, b, lease, owners, active), 1, Node(p, NoCall)) == Two(p, b, lease, owners, active)
  {
    assert Two(a, b, lease, owners, active).nodes[1 := Node(p, NoCall)] == Two(p, b, lease, owners, active).nodes;
  }

  lemma SetSecond(a: Phase, b: Phase, lease: Option<Lease>, owners: seq<nat>, active: bool, p: Phase)
    ensures SetNode(Two(a, b, lease, owners, active), 2, Node(p, NoCall)) == Two(a, p, lease, owners, active)
  {
    assert Two(a, b, lease, owners, active).nodes[2 := Node(p, NoCall)] == Two(a, p, lease, owners, active).nodes;
  }

  lemma TwoBegin(c: Config)
    requires {1, 2} <= c.timeouts.Keys
    ensures Valid(c, Begin(Two(Down, Down, None, [], false)))
  {
  }

  /** Node 1, when nobody holds the blob lease, gets it. */
  lemma FirstAcquires(c: Config, l: Option<Lease>)
    ensures Steps(c, Two(Trying(false), Down, l, [], false), AcquireBlob(1), Two(Up(1), Down, l, [1], true))
  {
    SetFirst(Trying(false), Down, l, [1], true, Up(1));
    assert [] + [1] == [1];
  }

  /** Node 2 then finds it held. */
  lemma SecondIsStuck(c: Config, l: Option<Lease>)
    requires 2 in c.clustered
    ensures Steps(c, Two(Up(1), Trying(false), l, [1], true), AcquireBlob(2), Two(Up(1), Stuck, l, [1], true))
  {
    SetSecond(Up(1), Trying(false), l, [1], true, Stuck);
  }

  lemma SecondBreaks(c: Config, l: Option<Lease>)
    ensures Steps(c, Two(Up(1), Stuck, l, [1], true), Break(2), Two(Up(1), Trying(true), l, [1], false))
  {
    SetSecond(Up(1), Stuck, l, [1], false, Trying(true));
  }

  /** The same two nodes while the break of node 2 may still arrive. */
  function Pending(w: World): World { w.(blob := w.blob.(late := multiset{LateBreak(2)})) }

  lemma SecondFailsToBreak(c: Config, l: Option<Lease>)
    ensures Steps(c, Two(Up(1), Stuck, l, [1], true), BreakFails(2, false), Pending(Two(Up(1), Down, l, [1], true)))
  {
    SetSecond(Up(1), Stuck, l, [1], true, Down);
  }

  lemma FirstStartsAlone(c: Config)
    requires 1 !in c.clustered
    ensures Steps(c, Two(Down, Down, None, [], false), Start(1), Two(Trying(false), Down, None, [], false))
  {
    SetFirst(Down, Down, None, [], false, Trying(false));
  }

  lemma TwoLease(a: Phase, b: Phase, l: Option<Lease>, m: Option<Lease>, owners: seq<nat>, active: bool)
    ensures Two(a, b, l, owners, active).(lease := m) == Two(a, b, m, owners, active)
  {
  }

  lemma TwoIsOpen(a: Phase, l: Option<Lease>, owners: seq<nat>, active: bool)
    ensures var w := Two(a, Down, l, owners, active);
      w.requests == map[] && 2 in w.nodes && w.nodes[2] == Node(Down, NoCall) && w.lease == l && w.now == 0
  {
  }

  lemma MixedMayClaim()
    ensures var w := Two(Up(1), Down, None, [1], true);
      MayClaim(Mixed(), w, 2) && Claimed(Mixed(), w, 2) == Lease(Some(2), Some(0), 0)
  {
  }

  /** What node 2 stores when it claims the lease first. */
  function SecondsLease(): Option<Lease> { Some(Lease(Some(2), Some(0), 0)) }

  lemma BreakFailureRun() returns (h: History)
    ensures Reaches(Mixed(), h, Pending(Two(Up(1), Down, SecondsLease(), [1], true))) && h.Then? && h.event == BreakFails(2, false)
  {
    hide Steps, Two, SetNode, Pending, Reaches;
    var c, l := Mixed(), SecondsLease();
    TwoBegin(c);
    FirstStartsAlone(c);
    FirstAcquires(c, None);
    SecondIsStuck(c, l);
    SecondFailsToBreak(c, l);
    MixedMayClaim();
    SetSecond(Up(1), Down, None, [1], true, Trying(false));
    TwoIsOpen(Up(1), None, [1], true);
    TwoLease(Up(1), Trying(false), None, l, [1], true);
    h := Begin(Two(Down, Down, None, [], false));
    assert Reaches(c, h, Two(Down, Down, None, [], false)) by { Starts(c, Two(Down, Down, None, [], false)); }
    h := Go(c, h, Two(Down, Down, None, [], false), Start(1), Two(Trying(false), Down, None, [], false));
    h := Go(c, h, Two(Trying(false), Down, None, [], false), AcquireBlob(1), Two(Up(1), Down, None, [1], true));
    h := Acquire(c, h, Two(Up(1), Down, None, [1], true), 2);
    h := Go(c, h, Two(Up(1), Trying(false), l, [1], true), AcquireBlob(2), Two(Up(1), Stuck, l, [1], true));
    h := Go(c, h, Two(Up(1), Stuck, l, [1], true), BreakFails(2, false), Pending(Two(Up(1), Down, l, [1], true)));
  }

  lemma Starts(c: Config, w: World)
    requires Valid(c, Begin(w))
    ensures Reaches(c, Begin(w), w)
  {
  }

  /**
    The blob lease is held, and the break fails: the node gives up its mount and keeps the cluster lease, although
    nothing crashed and it holds no blob lease.
  */
  lemma BreakFailureKeepsTheClusterLease() returns (h: History)
    ensures Valid(Mixed(), h) && Distinct(Mixed()) && OneClock(Mixed()) && h.Then? && h.event == BreakFails(2, false)
    ensures var w := End(Mixed(), h); 2 in w.nodes && w.nodes[2] == Node(Down, NoCall) && Holds(Mixed(), w, 2)
  {
    h := BreakFailureRun();
  }

  lemma FirstLeaves(c: Config, l: Option<Lease>)
    requires 1 !in c.clustered
    ensures Steps(c, Pending(Two(Up(1), Down, l, [1], true)), ReleaseBlob(1), Pending(Two(Down, Down, l, [1], false)))
    ensures Steps(c, Pending(Two(Down, Down, l, [1], false)), Start(1), Pending(Two(Trying(false), Down, l, [1], false)))
  {
    SetFirst(Up(1), Down, l, [1], false, Down);
    SetFirst(Down, Down, l, [1], false, Trying(false));
  }

  lemma FirstReturns(c: Config, l: Option<Lease>)
    ensures Steps(c, Pending(Two(Trying(false), Down, l, [1], false)), AcquireBlob(1), Pending(Two(Up(2), Down, l, [1, 1], true)))
  {
    SetFirst(Trying(false), Down, l, [1, 1], true, Up(2));
    assert [1] + [1] == [1, 1];
  }

  lemma BreakArrives(c: Config, l: Option<Lease>)
    ensures Steps(c, Pending(Two(Up(2), Down, l, [1, 1], true)), Late(LateBreak(2)), Two(Up(2), Down, l, [1, 1], false))
  {
    assert multiset{LateBreak(2)} - multiset{LateBreak(2)} == multiset{};
  }

  /** The break that was given up arrives when the blob lease has been given back and taken again, and ends the new lease. */
  lemma LateBreakEndsANewerLease() returns (h: History)
    ensures Valid(Mixed(), h) && Distinct(Mixed()) && OneClock(Mixed()) && h.Then? && h.event == Late(LateBreak(2))
    ensures End(Mixed(), h.before).blob.active
    ensures var w := End(Mixed(), h); 1 in w.nodes && w.nodes[1].phase == Up(2) && |w.blob.owners| == 2 && !w.blob.active && !w.blob.renewable
  {
    hide Steps, Pending;
    var c, l := Mixed(), SecondsLease();
    h := BreakFailureRun();
    FirstLeaves(c, l);
    FirstReturns(c, l);
    BreakArrives(c, l);
    h := Go(c, h, Pending(Two(Up(1), Down, l, [1], true)), ReleaseBlob(1), Pending(Two(Down, Down, l, [1], false)));
    h := Go(c, h, Pending(Two(Down, Down, l, [1], false)), Start(1), Pending(Two(Trying(false), Down, l, [1], false)));
    h := Go(c, h, Pending(Two(Trying(false), Down, l, [1], false)), AcquireBlob(1), Pending(Two(Up(2), Down, l, [1, 1], true)));
    PendingActive(Two(Up(2), Down, l, [1, 1], true));
    h := Go(c, h, Pending(Two(Up(2), Down, l, [1, 1], true)), Late(LateBreak(2)), Two(Up(2), Down, l, [1, 1], false));
  }

  lemma PendingActive(w: World)
    ensures Pending(w).blob.active == w.blob.active
  {
  }

  // ----- Equal identities, and a clock that runs ahead -----

  /** Two clustered nodes, whose recovery timeout is 60. */
  function Pair(names: map<nat, nat>, ahead: map<nat, nat>): Config { Config({1, 2}, map[1 := 60, 2 := 60], names, ahead) }

  lemma FirstMayClaim(c: Config)
    requires c == Pair(c.names, c.ahead)
    ensures MayClaim(c, Two(Down, Down, None, [], false), 1)
  {
  }

  /** Node 1 mounts; node 2, which may claim the lease at once, takes it and breaks node 1's blob lease at the same instant. */
  lemma LiveHolderIsBroken(c: Config) returns (h: History)
    requires c == Pair(c.names, c.ahead)
    requires MayClaim(c, Two(Up(1), Down, Some(Claimed(c, Two(Down, Down, None, [], false), 1)), [1], true), 2)
    ensures Valid(c, h)
    ensures var w := End(c, h); w.now == 0 && 1 in w.nodes && w.nodes[1].phase == Up(1) && |w.blob.owners| == 1 && !w.blob.active && !w.blob.renewable
  {
    hide Steps, MayClaim, Claimed;
    var w0 := Two(Down, Down, None, [], false);
    var l := Some(Claimed(c, w0, 1));
    var w1 := Two(Up(1), Down, l, [1], true);
    var m := Some(Claimed(c, w1, 2));
    TwoBegin(c);
    FirstMayClaim(c);
    FirstAcquires(c, l);
    SecondIsStuck(c, m);
    SecondBreaks(c, m);
    h := Acquire(c, Begin(w0), w0, 1);
    SetFirst(Down, Down, None, [], false, Trying(false));
    h := Go(c, h, Two(Trying(false), Down, l, [], false), AcquireBlob(1), w1);
    h := Acquire(c, h, w1, 2);
    SetSecond(Up(1), Down, l, [1], true, Trying(false));
    h := Go(c, h, Two(Up(1), Trying(false), m, [1], true), AcquireBlob(2), Two(Up(1), Stuck, m, [1], true));
    h := Go(c, h, Two(Up(1), Stuck, m, [1], true), Break(2), Two(Up(1), Trying(true), m, [1], false));
  }

  /** A live holder whose clock runs one tick ahead loses its lease, and its blob lease, at once. */
  lemma FastClockLosesTheLease() returns (h: History)
    ensures var c := Pair(map[], map[1 := 1]);
      && Distinct(c) && !OneClock(c) && Valid(c, h)
      && var w := End(c, h); w.now == 0 && 1 in w.nodes && w.nodes[1].phase == Up(1) && |w.blob.owners| == 1 && !w.blob.active && !w.blob.renewable
  {
    h := LiveHolderIsBroken(Pair(map[], map[1 := 1]));
  }

  /** So does a live holder that shares its identity with another node. */
  lemma SharedNameLosesTheLease() returns (h: History)
    ensures var c := Pair(map[1 := 7, 2 := 7], map[]);
      && !Distinct(c) && OneClock(c) && Valid(c, h)
      && var w := End(c, h); w.now == 0 && 1 in w.nodes && w.nodes[1].phase == Up(1) && |w.blob.owners| == 1 && !w.blob.active && !w.blob.renewable
  {
    var c := Pair(map[1 := 7, 2 := 7], map[]);
    assert Name(c, 1) == Name(c, 2);
    h := LiveHolderIsBroken(c);
  }
}
