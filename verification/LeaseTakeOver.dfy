/** Taking the cluster lease over succeeds once it is free, and a renewal protects it for the recovery timeout. */
module LeaseTakeOver {
  import opened Common
  import opened Leases
  import opened LeaseRuns
  import opened LeaseStrands

  // ----- A renewal protects -----

  /** Node `i` has held the lease since a renewal at or after `t`. */
  ghost predicate HeldSince(c: Config, w: World, i: nat, t: nat) {
    Holds(c, w, i) && w.lease.value.renewed.Some? && t <= w.lease.value.renewed.value
  }

  /** No release of node `i` takes effect between `p` and `h`. */
  ghost predicate NeverReleases(c: Config, h: History, p: History, i: nat)
    requires Valid(c, h) && Extends(h, p)
  {
    h == p || (!Releases(c, End(c, h.before), h.event, i) && NeverReleases(c, h.before, p, i))
  }

  ghost predicate Releases(c: Config, w: World, e: Event, i: nat)
    requires CanDo(c, w, e)
  {
    e.Land? && Made(w, e.request, i) && w.requests[e.request].op.Release? && Applies(w.lease, w.requests[e.request])
  }

  lemma HeldStep(c: Config, w: World, e: Event, i: nat, t: nat)
    requires Distinct(c) && Inv(c, w) && CanDo(c, w, e) && HeldSince(c, w, i, t) && !Releases(c, w, e, i)
    requires forall j | j in c.timeouts && j != i :: w.now < t + c.timeouts[j]
    ensures HeldSince(c, Do(c, w, e), i, t)
  {
    hide Do;
    if Do(c, w, e).lease != w.lease {
      OnlyLandChangesLease(c, w, e);
      AppliedIsCurrent(c, w, e.request);
    }
  }

  lemma ClockRuns(c: Config, w: World, e: Event)
    requires CanDo(c, w, e)
    ensures w.now <= Do(c, w, e).now
  {
    hide Decision, Applies, AfterCall, BlobAfter, NodeAfter;
  }

  /**
    A holder keeps the lease for the recovery timeout of every other node after its last renewal, whatever those nodes do,
    unless it gives it back.
  */
  lemma {:induction false} RenewalProtects(c: Config, h: History, p: History, i: nat, t: nat)
    requires Distinct(c) && OneClock(c) && Valid(c, h) && Extends(h, p) && Valid(c, p) && HeldSince(c, End(c, p), i, t)
    requires NeverReleases(c, h, p, i) && forall j | j in c.timeouts && j != i :: End(c, h).now < t + c.timeouts[j]
    ensures HeldSince(c, End(c, h), i, t)
  {
    hide CanDo, Do, HeldSince, Releases, RequestsOk, NodesOk, LogOk;
    if h != p {
      ClockRuns(c, End(c, h.before), h.event);
      RenewalProtects(c, h.before, p, i, t);
      HistoryKeepsInv(c, h.before);
      HeldStep(c, End(c, h.before), h.event, i, t);
    }
  }

  /** A renewal that takes effect records the time at which it was decided. */
  lemma RenewalIsStamped(c: Config, w: World, i: nat, q: nat)
    requires CanDo(c, w, Decide(i, q)) && w.nodes[i].call.op.Renew? && q in Do(c, w, Decide(i, q)).requests
    ensures Do(c, w, Decide(i, q)).requests[q].renewed == Some(Clock(c, i, w.now))
    ensures Do(c, w, Decide(i, q)).requests[q].holder == Some(Name(c, i))
  {
  }

  // ----- A free lease is taken -----

  /** An event that neither lands a swap nor is a step of node `i`, and does not end request `q`. */
  predicate Elsewhere(e: Event, i: nat, q: nat) {
    match e
    case Land(_, _) => false
    case Lose(r) => r != q
    case GiveUp(r) => r != q
    case Tick => true
    case Write(_) => true
    case Late(_) => true
    case Expire => true
    case _ => e.node != i
  }

  /** From `p` to `h` only such events. */
  ghost predicate Idles(h: History, p: History, i: nat, q: nat) {
    h == p || (h.Then? && Elsewhere(h.event, i, q) && Idles(h.before, p, i, q))
  }

  /** Where node `i` is in its try-acquire, and the lease it is about. */
  ghost predicate At(w: World, lease: Option<Lease>, i: nat, n: Node) { w.lease == lease && i in w.nodes && w.nodes[i] == n }

  /** The request in flight. */
  ghost predicate Flying(w: World, q: nat, r: Request) { q in w.requests && w.requests[q] == r }

  lemma ElsewhereKeeps(c: Config, w: World, e: Event, i: nat, q: nat, n: Node)
    requires CanDo(c, w, e) && Elsewhere(e, i, q) && i in w.nodes && w.nodes[i] == n && (n.call.Sent? ==> n.call.request == q)
    ensures Do(c, w, e).lease == w.lease && i in Do(c, w, e).nodes && Do(c, w, e).nodes[i] == n
    ensures q in w.requests ==> q in Do(c, w, e).requests && Do(c, w, e).requests[q] == w.requests[q]
  {
    hide Decision, BlobAfter;
  }

  lemma {:induction false} IdlesKeep(c: Config, h: History, p: History, i: nat, q: nat, lease: Option<Lease>, n: Node)
    requires Valid(c, h) && Valid(c, p) && Idles(h, p, i, q) && At(End(c, p), lease, i, n) && (n.call.Sent? ==> n.call.request == q)
    ensures At(End(c, h), lease, i, n)
    ensures q in End(c, p).requests ==> Flying(End(c, h), q, End(c, p).requests[q])
  {
    hide CanDo, Do, Elsewhere;
    if h != p {
      IdlesKeep(c, h.before, p, i, q, lease, n);
      ElsewhereKeeps(c, End(c, h.before), h.event, i, q, n);
    }
  }

  lemma GetSteps(c: Config, h: History, i: nat, lease: Option<Lease>)
    requires Valid(c, Then(h, Get(i, TryAcquire))) && At(End(c, h), lease, i, Node(Joining, NoCall))
    ensures At(End(c, Then(h, Get(i, TryAcquire))), lease, i, Node(Joining, Read(TryAcquire, lease)))
  {
  }

  /** What a try-acquire decided now would ask for. */
  function Claim(c: Config, w: World, i: nat, lease: Option<Lease>): Request {
    Request(i, TryAcquire, lease, Some(Name(c, i)), Some(Clock(c, i, w.now)))
  }

  lemma DecideSteps(c: Config, h: History, i: nat, q: nat, lease: Option<Lease>)
    requires Valid(c, Then(h, Decide(i, q))) && At(End(c, h), lease, i, Node(Joining, Read(TryAcquire, lease)))
    requires lease.Some? ==> !Protected(lease.value, Name(c, i), c.timeouts[i], Clock(c, i, End(c, h).now))
    ensures var g := Then(h, Decide(i, q));
      && At(End(c, g), lease, i, Node(Joining, Sent(TryAcquire, q)))
      && Flying(End(c, g), q, Claim(c, End(c, h), i, lease))
  {
    hide Decision;
    DecidesExactly(lease, Name(c, i), c.timeouts[i], Clock(c, i, End(c, h).now));
  }

  lemma LandSteps(c: Config, h: History, i: nat, q: nat, lease: Option<Lease>, r: Request)
    requires Valid(c, Then(h, Land(q, true))) && At(End(c, h), lease, i, Node(Joining, Sent(TryAcquire, q)))
    requires Flying(End(c, h), q, r) && r.node == i && r.op.TryAcquire? && r.base == lease && r.holder == Some(Name(c, i))
    ensures var w := End(c, Then(h, Land(q, true))); Holds(c, w, i) && i in w.nodes && w.nodes[i] == Node(Trying(false), NoCall)
    ensures End(c, Then(h, Land(q, true))).lease.value.renewed == r.renewed
  {
  }

  /**
    In every run: a joining node gets the object, decides and swaps, and nobody else's swap lands meanwhile, whatever else
    goes on.  It ends up holding the lease, on its way to the blob lease, unless the object was protected when it decided.
  */
  lemma FreeLeaseIsTaken(c: Config, h: History, got: History, sent: History, last: History, i: nat, q: nat)
    requires Valid(c, h) && At(End(c, h), End(c, h).lease, i, Node(Joining, NoCall))
    requires Idles(got, h, i, q) && Valid(c, Then(got, Get(i, TryAcquire)))
    requires Idles(sent, Then(got, Get(i, TryAcquire)), i, q) && Valid(c, Then(sent, Decide(i, q)))
    requires Idles(last, Then(sent, Decide(i, q)), i, q) && Valid(c, Then(last, Land(q, true)))
    requires End(c, h).lease.Some? ==>
               i in c.timeouts && !Protected(End(c, h).lease.value, Name(c, i), c.timeouts[i], Clock(c, i, End(c, sent).now))
    ensures var w := End(c, Then(last, Land(q, true))); Holds(c, w, i) && i in w.nodes && w.nodes[i] == Node(Trying(false), NoCall)
  {
    hide CanDo, Do, At, Flying, Idles, Holds;
    var lease := End(c, h).lease;
    IdlesKeep(c, got, h, i, q, lease, Node(Joining, NoCall));
    GetSteps(c, got, i, lease);
    IdlesKeep(c, sent, Then(got, Get(i, TryAcquire)), i, q, lease, Node(Joining, Read(TryAcquire, lease)));
    DecideSteps(c, sent, i, q, lease);
    Flies(End(c, Then(sent, Decide(i, q))), q, Claim(c, End(c, sent), i, lease));
    IdlesKeep(c, last, Then(sent, Decide(i, q)), i, q, lease, Node(Joining, Sent(TryAcquire, q)));
    LandSteps(c, last, i, q, lease, Claim(c, End(c, sent), i, lease));
  }

  lemma Flies(w: World, q: nat, r: Request)
    requires Flying(w, q, r)
    ensures q in w.requests && w.requests[q] == r
  {
  }

  /** A release that has taken effect leaves the lease unheld, and so for any other node to take. */
  lemma ReleasedLeaseIsTakenAgain(c: Config, h: History, q0: nat, heard: bool, got: History, sent: History, last: History, i: nat, q: nat)
    requires OneClock(c) && Valid(c, Then(h, Land(q0, heard)))
    requires Applies(End(c, h).lease, End(c, h).requests[q0]) && End(c, h).requests[q0].op.Release?
    requires var free := Then(h, Land(q0, heard));
      && i in End(c, free).nodes && End(c, free).nodes[i] == Node(Joining, NoCall)
      && Idles(got, free, i, q) && Valid(c, Then(got, Get(i, TryAcquire)))
    requires Idles(sent, Then(got, Get(i, TryAcquire)), i, q) && Valid(c, Then(sent, Decide(i, q)))
    requires Idles(last, Then(sent, Decide(i, q)), i, q) && Valid(c, Then(last, Land(q, true)))
    ensures var w := End(c, Then(last, Land(q, true))); Holds(c, w, i) && i in w.nodes && w.nodes[i] == Node(Trying(false), NoCall)
  {
    hide Idles;
    var free := Then(h, Land(q0, heard));
    HistoryKeepsInv(c, h);
    AppliedIsCurrent(c, End(c, h), q0);
    assert End(c, free).lease.Some? && End(c, free).lease.value.holder == None;
    HasTimeout(c, sent, i, q);
    FreeLeaseIsTaken(c, free, got, sent, last, i, q);
  }

  lemma HasTimeout(c: Config, h: History, i: nat, q: nat)
    requires Valid(c, Then(h, Decide(i, q)))
    ensures i in c.timeouts
  {
  }

  // ----- A holder that has gone is replaced -----

  lemma {:induction false} Waits(c: Config, h: History, i: nat, q: nat, n: nat) returns (g: History)
    requires Valid(c, h)
    ensures Valid(c, g) && Idles(g, h, i, q) && End(c, g).now == End(c, h).now + n && End(c, g).requests == End(c, h).requests
  {
    if n == 0 { return h; }
    var m := Waits(c, h, i, q, n - 1);
    g := Then(m, Tick);
  }

  lemma {:induction false} Fresh(ids: set<nat>) returns (q: nat)
    ensures forall x | x in ids :: x < q
  {
    if ids == {} { return 0; }
    var p :| p in ids;
    var m := Fresh(ids - {p});
    q := if m <= p then p + 1 else m;
    forall x | x in ids ensures x < q { assert x == p || x in ids - {p}; }
  }

  lemma GetsTo(c: Config, h: History, i: nat, lease: Option<Lease>)
    requires Valid(c, h) && At(End(c, h), lease, i, Node(Joining, NoCall))
    ensures Valid(c, Then(h, Get(i, TryAcquire))) && End(c, Then(h, Get(i, TryAcquire))).requests == End(c, h).requests
    ensures End(c, Then(h, Get(i, TryAcquire))).now == End(c, h).now
  {
  }

  lemma DecidesTo(c: Config, h: History, i: nat, q: nat, lease: Option<Lease>)
    requires Valid(c, h) && At(End(c, h), lease, i, Node(Joining, Read(TryAcquire, lease))) && i in c.timeouts && q !in End(c, h).requests
    ensures Valid(c, Then(h, Decide(i, q)))
  {
  }

  lemma LandsTo(c: Config, h: History, i: nat, q: nat, lease: Option<Lease>, n: Node, r: Request)
    requires Valid(c, h) && At(End(c, h), lease, i, n) && Flying(End(c, h), q, r) && r.node == i
    ensures Valid(c, Then(h, Land(q, true)))
  {
  }

  lemma Unprotects(c: Config, lease: Lease, i: nat, timeout: nat, now: nat, n: nat)
    requires n >= timeout + if lease.renewed.Some? then lease.renewed.value else 0
    ensures !Protected(lease, Name(c, i), timeout, Clock(c, i, now + n))
  {
  }

  lemma {:induction false} IdlesExtend(h: History, p: History, i: nat, q: nat)
    requires Idles(h, p, i, q)
    ensures Extends(h, p)
  {
    if h != p { IdlesExtend(h.before, p, i, q); }
  }

  lemma {:induction false} ExtendsOn(h: History, m: History, p: History)
    requires Extends(h, m) && Extends(m, p)
    ensures Extends(h, p)
  {
    if h != m { ExtendsOn(h.before, m, p); }
  }

  lemma StaysPut(h: History, i: nat, q: nat)
    ensures Idles(h, h, i, q)
  {
  }

  /**
    In every run, whoever holds the lease, a joining node can wait until it is not protected any more and take it: a holder
    that is gone for good is replaced.
  */
  lemma HolderIsReplaced(c: Config, h: History, i: nat) returns (g: History)
    requires Valid(c, h) && At(End(c, h), End(c, h).lease, i, Node(Joining, NoCall)) && i in c.timeouts
    ensures Valid(c, g) && Extends(g, h) && Holds(c, End(c, g), i) && i in End(c, g).nodes && End(c, g).nodes[i] == Node(Trying(false), NoCall)
  {
    hide CanDo, Do, At, Flying, Holds, Idles;
    var lease := End(c, h).lease;
    var q := Fresh(End(c, h).requests.Keys);
    var n := c.timeouts[i] + if lease.Some? && lease.value.renewed.Some? then lease.value.renewed.value else 0;
    var got := Waits(c, h, i, q, n);
    IdlesKeep(c, got, h, i, q, lease, Node(Joining, NoCall));
    GetsTo(c, got, i, lease);
    GetSteps(c, got, i, lease);
    var sent := Then(got, Get(i, TryAcquire));
    DecidesTo(c, sent, i, q, lease);
    if lease.Some? { Unprotects(c, lease.value, i, c.timeouts[i], End(c, h).now, n); }
    DecideSteps(c, sent, i, q, lease);
    var last := Then(sent, Decide(i, q));
    LandsTo(c, last, i, q, lease, Node(Joining, Sent(TryAcquire, q)), Claim(c, End(c, sent), i, lease));
    StaysPut(sent, i, q);
    StaysPut(last, i, q);
    g := Then(last, Land(q, true));
    FreeLeaseIsTaken(c, h, got, sent, last, i, q);
    IdlesExtend(got, h, i, q);
    assert Extends(sent, got);
    assert Extends(last, got);
    assert Extends(g, got);
    ExtendsOn(g, got, h);
  }

  // ----- A node leaves -----

  lemma ReleaseGets(c: Config, h: History, i: nat, lease: Option<Lease>)
    requires Valid(c, Then(h, Get(i, Release))) && At(End(c, h), lease, i, Node(Leaving, NoCall))
    ensures At(End(c, Then(h, Get(i, Release))), lease, i, Node(Leaving, Read(Release, lease)))
  {
  }

  lemma ReleaseDecides(c: Config, h: History, i: nat, q: nat, lease: Option<Lease>)
    requires Valid(c, Then(h, Decide(i, q))) && At(End(c, h), lease, i, Node(Leaving, Read(Release, lease)))
    ensures var w := End(c, Then(h, Decide(i, q)));
      if lease.Some? && lease.value.holder == Some(Name(c, i))
      then At(w, lease, i, Node(Leaving, Sent(Release, q))) && Flying(w, q, Request(i, Release, lease, None, None))
      else At(w, lease, i, Node(Down, NoCall))
  {
    hide Decision;
    DecidesExactly(lease, Name(c, i), c.timeouts[i], Clock(c, i, End(c, h).now));
  }

  lemma ReleaseLands(c: Config, h: History, i: nat, q: nat, heard: bool, lease: Lease)
    requires Valid(c, Then(h, Land(q, heard))) && At(End(c, h), Some(lease), i, Node(Leaving, Sent(Release, q)))
    requires Flying(End(c, h), q, Request(i, Release, Some(lease), None, None))
    ensures At(End(c, Then(h, Land(q, heard))), Some(Lease(None, None, lease.version + 1)), i, Node(Down, NoCall))
  {
  }

  /**
    In every run: a leaving node gets the object and decides, and no swap lands meanwhile.  If the lease is not its own it is
    down at once and leaves it alone.
  */
  lemma OtherLeavesItAlone(c: Config, h: History, got: History, sent: History, i: nat, q: nat)
    requires Valid(c, h) && At(End(c, h), End(c, h).lease, i, Node(Leaving, NoCall)) && !Holds(c, End(c, h), i)
    requires Idles(got, h, i, q) && Valid(c, Then(got, Get(i, Release)))
    requires Idles(sent, Then(got, Get(i, Release)), i, q) && Valid(c, Then(sent, Decide(i, q)))
    ensures At(End(c, Then(sent, Decide(i, q))), End(c, h).lease, i, Node(Down, NoCall))
  {
    hide CanDo, Do, At, Flying, Idles;
    var lease := End(c, h).lease;
    IdlesKeep(c, got, h, i, q, lease, Node(Leaving, NoCall));
    ReleaseGets(c, got, i, lease);
    IdlesKeep(c, sent, Then(got, Get(i, Release)), i, q, lease, Node(Leaving, Read(Release, lease)));
    ReleaseDecides(c, sent, i, q, lease);
  }

  /** If the lease is its own, the swap, heard of or not, leaves it unheld and the node down. */
  lemma HolderGivesItBack(c: Config, h: History, got: History, sent: History, last: History, i: nat, q: nat, heard: bool)
    requires Valid(c, h) && At(End(c, h), End(c, h).lease, i, Node(Leaving, NoCall)) && Holds(c, End(c, h), i)
    requires Idles(got, h, i, q) && Valid(c, Then(got, Get(i, Release)))
    requires Idles(sent, Then(got, Get(i, Release)), i, q) && Valid(c, Then(sent, Decide(i, q)))
    requires Idles(last, Then(sent, Decide(i, q)), i, q) && Valid(c, Then(last, Land(q, heard)))
    ensures var free := Lease(None, None, End(c, h).lease.value.version + 1);
      At(End(c, Then(last, Land(q, heard))), Some(free), i, Node(Down, NoCall))
  {
    hide CanDo, Do, At, Flying, Idles;
    var lease := End(c, h).lease;
    IdlesKeep(c, got, h, i, q, lease, Node(Leaving, NoCall));
    ReleaseGets(c, got, i, lease);
    IdlesKeep(c, sent, Then(got, Get(i, Release)), i, q, lease, Node(Leaving, Read(Release, lease)));
    ReleaseDecides(c, sent, i, q, lease);
    Flies(End(c, Then(sent, Decide(i, q))), q, Request(i, Release, lease, None, None));
    IdlesKeep(c, last, Then(sent, Decide(i, q)), i, q, lease, Node(Leaving, Sent(Release, q)));
    ReleaseLands(c, last, i, q, heard, lease.value);
  }

  // ----- When the blob lease is in force -----

  /** The events that end the lease of the newest id. */
  predicate Ends(w: World, e: Event) {
    var id := |w.blob.owners|;
    match e
    case Expire => true
    case Break(_) => true
    case BreakFails(_, applied) => applied
    case ReleaseBlob(i) => i in w.nodes && w.nodes[i].phase == Up(id)
    case ReleaseFails(i, applied) => applied && i in w.nodes && w.nodes[i].phase == Up(id)
    case Late(op) => op.LateBreak? || (op.LateRelease? && op.id == id)
    case _ => false
  }

  /** The events that put it, or a new one, in force while none is. */
  predicate Begins(w: World, e: Event) {
    var id := |w.blob.owners|;
    match e
    case AcquireBlob(_) => true
    case AcquireFails(_, applied) => applied
    case RenewBlob(i) => w.blob.renewable && i in w.nodes && w.nodes[i].phase == Up(id)
    case Late(op) => op.LateAcquire? || (op.LateRenew? && op.id == id && w.blob.renewable)
    case _ => false
  }

  /** In every step, the blob lease comes into force and ends exactly by these events. */
  lemma InForceExactly(c: Config, w: World, e: Event)
    requires CanDo(c, w, e)
    ensures Do(c, w, e).blob.active <==> if w.blob.active then !Ends(w, e) else Begins(w, e)
  {
    hide CanCluster, DoCluster, NodeAfter;
    if OfCluster(e) { ClusterKeepsBlob(c, w, e); }
  }

  // ----- From the cluster lease to the blob lease -----

  lemma AcquireSteps(c: Config, w: World, i: nat)
    requires i in w.nodes && w.nodes[i].phase.Trying?
    ensures CanDo(c, w, AcquireBlob(i))
    ensures var v := Do(c, w, AcquireBlob(i));
      && i in v.nodes
      && (!w.blob.active ==> v.nodes[i].phase == Up(|w.blob.owners| + 1) && v.blob.active && v.blob.owners == w.blob.owners + [i])
      && (w.blob.active ==> v.blob == w.blob)
      && (w.blob.active && !w.nodes[i].phase.again ==> v.nodes[i].phase == if i in c.clustered then Stuck else Down)
      && (w.blob.active && w.nodes[i].phase.again ==> v.nodes[i].phase == Rollback(c, i))
  {
  }

  lemma BreakSteps(c: Config, w: World, i: nat)
    requires i in w.nodes && w.nodes[i].phase.Stuck?
    ensures CanDo(c, w, Break(i))
    ensures var v := Do(c, w, Break(i));
      i in v.nodes && v.nodes[i].phase == Trying(true) && !v.blob.active && !v.blob.renewable && v.blob.owners == w.blob.owners
  {
  }

  /**
    A clustered node that has the cluster lease mounts, whoever has the blob lease: at once if nobody has it, and
    otherwise by breaking it, which fences its holder for good.  A node outside the cluster breaks nothing and gives up.
  */
  lemma TryingMountsExactly(c: Config, h: History, i: nat)
    requires Valid(c, h) && i in End(c, h).nodes && End(c, h).nodes[i].phase == Trying(false)
    ensures var w, g := End(c, h), Then(h, AcquireBlob(i)); var broken := Then(g, Break(i)); var again := Then(broken, AcquireBlob(i));
      && Valid(c, g) && i in End(c, g).nodes
      && (!w.blob.active ==> End(c, g).nodes[i].phase == Up(|w.blob.owners| + 1))
      && (w.blob.active && i !in c.clustered ==> End(c, g).nodes[i].phase.Down? && End(c, g).blob == w.blob)
      && (w.blob.active && i in c.clustered ==>
            && Valid(c, again) && i in End(c, again).nodes
            && End(c, again).nodes[i].phase == Up(|w.blob.owners| + 1)
            && !End(c, broken).blob.active && !End(c, broken).blob.renewable)
  {
    hide CanDo, Do;
    var g := Then(h, AcquireBlob(i));
    AcquireSteps(c, End(c, h), i);
    if End(c, h).blob.active && i in c.clustered {
      BreakSteps(c, End(c, g), i);
      AcquireSteps(c, End(c, Then(g, Break(i))), i);
    }
  }

  /** A node that releases the blob lease frees it for the next one. */
  lemma ReleaseFrees(c: Config, h: History, i: nat)
    requires Valid(c, Then(h, ReleaseBlob(i)))
    requires End(c, h).nodes[i].phase == Up(|End(c, h).blob.owners|)
    ensures var g := Then(h, ReleaseBlob(i));
      !End(c, g).blob.active && !End(c, g).blob.renewable && End(c, g).blob.owners == End(c, h).blob.owners
  {
    hide CanCluster, DoCluster;
  }
}
