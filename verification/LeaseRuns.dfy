/** What holds over whole runs of the mount protocol, whatever the interleaving. */
module LeaseRuns {
  import opened Common
  import opened Leases

  /** A run, newest event last. */
  datatype History = Begin(world: World) | Then(before: History, event: Event)

  /** Before the run: no node is mounting, nothing is in flight, the log is in order. */
  ghost predicate Fresh(c: Config, w: World) {
    && LeaseOk(w.lease, w.now)
    && w.requests == map[] && w.blob.late == multiset{}
    && LogOk(w)
    && (forall i | i in w.nodes :: i in c.timeouts && w.nodes[i] == Node(Down, NoCall))
  }

  ghost predicate Valid(c: Config, h: History)
    decreases h, 0
  {
    match h
    case Begin(w) => Fresh(c, w)
    case Then(b, e) => Valid(c, b) && CanDo(c, End(c, b), e)
  }

  ghost function End(c: Config, h: History): World
    requires Valid(c, h)
    decreases h, 1
  {
    match h
    case Begin(w) => w
    case Then(b, e) => Do(c, End(c, b), e)
  }

  /** `h` goes on from `p`. */
  ghost predicate Extends(h: History, p: History) {
    h == p || (h.Then? && Extends(h.before, p))
  }

  lemma {:induction false} HistoryKeepsInv(c: Config, h: History)
    requires OneClock(c)
    requires Valid(c, h)
    ensures Inv(c, End(c, h))
  {
    if h.Then? {
      HistoryKeepsInv(c, h.before);
      EventKeepsInv(c, End(c, h.before), h.event);
    }
  }

  // ----- Hand-over of the cluster lease -----

  /** Only a swap that the server applies changes the lease. */
  lemma OnlyLandChangesLease(c: Config, w: World, e: Event)
    requires CanDo(c, w, e) && Do(c, w, e).lease != w.lease
    ensures e.Land? && Applies(w.lease, w.requests[e.request])
    ensures Do(c, w, e).lease == Some(Stored(w.lease, w.requests[e.request]))
  {
    hide DoCluster, DoBlob;
    if OfCluster(e) { ClusterKeepsBlob(c, w, e); } else { BlobKeepsCluster(c, w, e); }
  }

  /** An applied replace was computed from the lease as it is now. */
  lemma AppliedIsCurrent(c: Config, w: World, q: nat)
    requires Inv(c, w) && q in w.requests && Applies(w.lease, w.requests[q])
    ensures w.requests[q].base == w.lease && RequestOk(c, w.requests[q], w.lease, w.now)
  {
  }

  /**
    In every run a holder loses the lease only by its own release, or to a node whose recovery timeout has passed
    since the last renewal when the swap lands.
  */
  lemma HandOver(c: Config, h: History, e: Event, k: nat)
    requires OneClock(c) && Distinct(c)
    requires Valid(c, Then(h, e))
    requires End(c, h).lease.Some? && HeldBy(End(c, h).lease.value, Name(c, k))
    requires End(c, Then(h, e)).lease.None? || !HeldBy(End(c, Then(h, e)).lease.value, Name(c, k))
    ensures e.Land? && e.request in End(c, h).requests && End(c, Then(h, e)).lease.Some?
    ensures var w := End(c, h);
            var r := w.requests[e.request];
            || (r.op.Release? && r.node == k && End(c, Then(h, e)).lease.value.holder == None)
            || (&& r.op.TryAcquire?
                && r.node != k
                && r.node in c.timeouts
                && HeldBy(End(c, Then(h, e)).lease.value, Name(c, r.node))
                && w.lease.value.renewed.Some?
                && w.lease.value.renewed.value + c.timeouts[r.node] <= w.now)
  {
    HistoryKeepsInv(c, h);
    OnlyLandChangesLease(c, End(c, h), e);
    AppliedIsCurrent(c, End(c, h), e.request);
  }

  /** In every reachable state a set holder has a renewal time, which is not in the future. */
  lemma SetHolderHasRenewTime(c: Config, h: History)
    requires OneClock(c)
    requires Valid(c, h) && End(c, h).lease.Some? && End(c, h).lease.value.holder.Some?
    ensures End(c, h).lease.value.renewed.Some?
    ensures End(c, h).lease.value.renewed.value <= End(c, h).now
  {
    HistoryKeepsInv(c, h);
  }

  ghost predicate Displaced(c: Config, w: World, i: nat) { w.lease.Some? && !HeldBy(w.lease.value, Name(c, i)) }

  /** Event `e` is a try-acquire of node `i` that takes effect. */
  ghost predicate Acquires(c: Config, w: World, e: Event, i: nat)
    requires CanDo(c, w, e)
  {
    && e.Land?
    && w.requests[e.request].node == i
    && w.requests[e.request].op.TryAcquire?
    && Applies(w.lease, w.requests[e.request])
  }

  ghost predicate NeverAcquires(c: Config, h: History, p: History, i: nat)
    requires Valid(c, h) && Extends(h, p)
  {
    h == p || (!Acquires(c, End(c, h.before), h.event, i) && NeverAcquires(c, h.before, p, i))
  }

  lemma DisplacedStep(c: Config, w: World, e: Event, i: nat)
    requires Distinct(c)
    requires Inv(c, w) && CanDo(c, w, e) && Displaced(c, w, i) && !Acquires(c, w, e, i)
    ensures Displaced(c, Do(c, w, e), i)
  {
    if Do(c, w, e).lease != w.lease {
      OnlyLandChangesLease(c, w, e);
      AppliedIsCurrent(c, w, e.request);
    }
  }

  /** A displaced node stays out until it acquires again, however many renewals it sends. */
  lemma {:induction false} DisplacedStaysOut(c: Config, h: History, p: History, i: nat)
    requires OneClock(c) && Distinct(c)
    requires Valid(c, h) && Extends(h, p) && Valid(c, p) && Displaced(c, End(c, p), i)
    requires NeverAcquires(c, h, p, i)
    ensures Displaced(c, End(c, h), i)
  {
    if h != p {
      DisplacedStaysOut(c, h.before, p, i);
      HistoryKeepsInv(c, h.before);
      DisplacedStep(c, End(c, h.before), h.event, i);
    }
  }

  /** So each of its renewals fails: the swap is refused and the lease is left alone. */
  lemma DisplacedRenewFails(c: Config, h: History, p: History, i: nat, q: nat)
    requires OneClock(c) && Distinct(c)
    requires Valid(c, h) && Extends(h, p) && Valid(c, p) && Displaced(c, End(c, p), i)
    requires NeverAcquires(c, h, p, i)
    requires q in End(c, h).requests && End(c, h).requests[q].node == i && End(c, h).requests[q].op.Renew?
    ensures !Applies(End(c, h).lease, End(c, h).requests[q])
  {
    DisplacedStaysOut(c, h, p, i);
    HistoryKeepsInv(c, h);
    if Applies(End(c, h).lease, End(c, h).requests[q]) {
      AppliedIsCurrent(c, End(c, h), q);
    }
  }

  /** A lease that `node` may not take: another holder renewed it within the timeout, by a clock not ahead of the reader's. */
  predicate Protected(seen: Lease, node: nat, timeout: nat, now: nat) {
    && seen.holder.Some? && seen.holder != Some(node)
    && seen.renewed.Some? && seen.renewed.value <= now < seen.renewed.value + timeout
  }

  /**
    What each call does with any object it reads, absent, unheld, its own, fresh or stale: a try-acquire claims it unless it
    is protected, a renewal claims it if it is absent or its own, and a release clears it if it is its own.
  */
  lemma DecidesExactly(seen: Option<Lease>, node: nat, timeout: nat, now: nat)
    ensures Decision(TryAcquire, seen, node, timeout, now) ==
              if seen.Some? && Protected(seen.value, node, timeout, now) then None else Some(Some(node))
    ensures Decision(Renew, seen, node, timeout, now) ==
              if seen.Some? && seen.value.holder != Some(node) then None else Some(Some(node))
    ensures Decision(Release, seen, node, timeout, now) ==
              if seen.Some? && seen.value.holder == Some(node) then Some(None) else None
  {
  }

  /** Under another holder: a renewal time ahead of the reader's clock counts as none, so a fast clock loses the lease. */
  lemma TakeableExactly(seen: Lease, node: nat, timeout: nat, now: nat)
    requires seen.holder.Some? && !HeldBy(seen, node)
    ensures Decision(TryAcquire, Some(seen), node, timeout, now).Some? <==>
            (seen.renewed.Some? && seen.renewed.value <= now ==> seen.renewed.value + timeout <= now)
  {
    DecidesExactly(Some(seen), node, timeout, now);
  }

  // ----- Write epochs -----

  /** Lease ids are issued once, and no step forgets or reorders what was written. */
  lemma StepExtends(c: Config, w: World, e: Event)
    requires CanDo(c, w, e)
    ensures w.blob.owners <= Do(c, w, e).blob.owners && w.blob.log <= Do(c, w, e).blob.log
  {
    hide CanCluster, DoCluster, NodeAfter;
    if OfCluster(e) { ClusterKeepsBlob(c, w, e); }
  }

  lemma {:induction false} HistoryKeepsBlobInv(c: Config, h: History)
    requires Valid(c, h)
    ensures BlobInv(c, End(c, h))
  {
    hide CanDo, Do, LogOk;
    if h.Then? {
      HistoryKeepsBlobInv(c, h.before);
      EventKeepsBlobInv(c, End(c, h.before), h.event);
    }
  }

  lemma LogInOrder(c: Config, h: History)
    requires Valid(c, h)
    ensures LogOk(End(c, h))
  {
    HistoryKeepsBlobInv(c, h);
  }

  lemma SortedIsContiguous(w: World, i: nat, j: nat, k: nat)
    requires LogOk(w) && i <= j <= k < |w.blob.log| && w.blob.log[i] == w.blob.log[k]
    ensures w.blob.log[j] == w.blob.log[i] && 0 < w.blob.log[i] <= |w.blob.owners|
  {
  }

  /** Accepted writes form one contiguous epoch per lease id, and every id was issued to one node. */
  lemma WritesFormEpochs(c: Config, h: History, i: nat, j: nat, k: nat)
    requires Valid(c, h) && i <= j <= k < |End(c, h).blob.log| && End(c, h).blob.log[i] == End(c, h).blob.log[k]
    ensures End(c, h).blob.log[j] == End(c, h).blob.log[i]
    ensures 0 < End(c, h).blob.log[i] <= |End(c, h).blob.owners|
  {
    hide LogOk, End, Valid;
    LogInOrder(c, h);
    SortedIsContiguous(End(c, h), i, j, k);
  }

  lemma PhaseInOrder(c: Config, h: History, i: nat)
    requires Valid(c, h) && i in End(c, h).nodes
    ensures PhaseOk(c, i, End(c, h).nodes[i].phase, End(c, h).blob.owners)
  {
    hide LogOk;
    HistoryKeepsBlobInv(c, h);
  }

  /** A lease id is held by no node but the one it was issued to. */
  lemma IdHasOneHolder(c: Config, h: History, i: nat, j: nat)
    requires Valid(c, h)
    requires i in End(c, h).nodes && End(c, h).nodes[i].phase.Up?
    requires j in End(c, h).nodes && End(c, h).nodes[j].phase.Up?
    requires End(c, h).nodes[i].phase.id == End(c, h).nodes[j].phase.id
    ensures i == j
  {
    PhaseInOrder(c, h, i);
    PhaseInOrder(c, h, j);
  }

  /** Once a newer id has been issued, no write under the old one is ever accepted again. */
  lemma {:induction false} SupersededIdIsFenced(c: Config, h: History, p: History, id: nat)
    requires Valid(c, h) && Extends(h, p) && Valid(c, p) && id < |End(c, p).blob.owners|
    ensures End(c, p).blob.log <= End(c, h).blob.log && End(c, p).blob.owners <= End(c, h).blob.owners
    ensures id !in End(c, h).blob.log[|End(c, p).blob.log|..]
  {
    hide CanDo, Do;
    if h != p {
      SupersededIdIsFenced(c, h.before, p, id);
      StepExtends(c, End(c, h.before), h.event);
      EndedStays(c, End(c, h.before), h.event);
    }
  }

  /** Breaking a lease fences its holder at once: nothing more is accepted under its id, renewed or not. */
  lemma {:induction false} BrokenIdIsFenced(c: Config, h: History, p: History)
    requires Valid(c, h) && Extends(h, p) && Valid(c, p) && !End(c, p).blob.active && !End(c, p).blob.renewable
    ensures |End(c, p).blob.owners| <= |End(c, h).blob.owners| && End(c, p).blob.log <= End(c, h).blob.log
    ensures |End(c, h).blob.owners| == |End(c, p).blob.owners| ==> !End(c, h).blob.active && !End(c, h).blob.renewable
    ensures |End(c, p).blob.owners| !in End(c, h).blob.log[|End(c, p).blob.log|..]
  {
    hide CanDo, Do;
    if h != p {
      BrokenIdIsFenced(c, h.before, p);
      StepExtends(c, End(c, h.before), h.event);
      EndedStays(c, End(c, h.before), h.event);
    }
  }

  /** An ended lease stays ended until a newer id is issued, and until then nothing is accepted. */
  lemma EndedStays(c: Config, w: World, e: Event)
    requires CanDo(c, w, e)
    ensures var b, d := w.blob, Do(c, w, e).blob;
      && (!b.active && !b.renewable && |d.owners| == |b.owners| ==> !d.active && !d.renewable && d.log == b.log)
      && (d.log == b.log || (d.log == b.log + [|b.owners|] && d.owners == b.owners))
  {
    hide CanCluster, DoCluster, NodeAfter;
    if OfCluster(e) { ClusterKeepsBlob(c, w, e); }
  }

  /** A write is accepted exactly if it is under the newest lease id and that lease is in force. */
  lemma AcceptedExactly(c: Config, h: History, id: nat)
    requires Valid(c, Then(h, Write(id)))
    ensures var b := End(c, h).blob;
      End(c, Then(h, Write(id))).blob.log == if b.active && id == |b.owners| then b.log + [id] else b.log
  {
  }

  /** A node that acquires the blob lease is mounted, and its writes are accepted from then on. */
  lemma MountedIsAccepted(c: Config, h: History, i: nat)
    requires Valid(c, Then(h, AcquireBlob(i))) && !End(c, h).blob.active
    ensures var g := Then(h, AcquireBlob(i)); var id := |End(c, h).blob.owners| + 1;
      && i in End(c, g).nodes && End(c, g).nodes[i].phase == Up(id)
      && Valid(c, Then(g, Write(id))) && End(c, Then(g, Write(id))).blob.log == End(c, h).blob.log + [id]
  {
    hide CanCluster, DoCluster;
    AcceptedExactly(c, Then(h, AcquireBlob(i)), |End(c, h).blob.owners| + 1);
  }

  /**
    A lease that expired is revived by a renewal of its holder, unless it was broken or released or a newer id was issued;
    in between nothing is accepted.
  */
  lemma RenewedIsAccepted(c: Config, h: History, i: nat)
    requires Valid(c, h) && End(c, h).blob.active && i in End(c, h).nodes
    requires End(c, h).nodes[i].phase == Up(|End(c, h).blob.owners|) && End(c, h).blob.renewable
    ensures var id := |End(c, h).blob.owners|;
      && id > 0 && Valid(c, Then(Then(h, Expire), Write(id)))
      && End(c, Then(Then(h, Expire), Write(id))).blob.log == End(c, h).blob.log
      && Valid(c, Then(Then(Then(h, Expire), RenewBlob(i)), Write(id)))
      && End(c, Then(Then(Then(h, Expire), RenewBlob(i)), Write(id))).blob.log == End(c, h).blob.log + [id]
  {
    hide CanDo, Do;
    PhaseInOrder(c, h, i);
    var id := |End(c, h).blob.owners|;
    var e := Then(h, Expire);
    ExpireStep(c, End(c, h));
    RevivedStep(c, End(c, e), i);
    WriteStep(c, End(c, e), id);
    WriteStep(c, End(c, Then(e, RenewBlob(i))), id);
  }

  lemma ExpireStep(c: Config, w: World)
    requires w.blob.active
    ensures CanDo(c, w, Expire) && Do(c, w, Expire) == w.(blob := w.blob.(active := false))
  {
  }

  lemma RevivedStep(c: Config, w: World, i: nat)
    requires i in w.nodes && w.nodes[i].phase == Up(|w.blob.owners|) && w.blob.renewable
    ensures CanDo(c, w, RenewBlob(i)) && Do(c, w, RenewBlob(i)).blob == w.blob.(active := true)
  {
  }

  lemma WriteStep(c: Config, w: World, id: nat)
    requires 0 < id <= |w.blob.owners|
    ensures CanDo(c, w, Write(id))
    ensures Do(c, w, Write(id)).blob == w.blob.(log := if w.blob.active && id == |w.blob.owners| then w.blob.log + [id] else w.blob.log)
  {
  }

  // ----- Who breaks a blob lease -----

  /** Node `i` acquires the lease and hears of it. */
  ghost predicate Wins(c: Config, w: World, e: Event, i: nat)
    requires CanDo(c, w, e)
  {
    Acquires(c, w, e, i) && e.heard && i in w.nodes && w.nodes[i].call == Sent(TryAcquire, e.request)
  }

  /** Node `i` has won the cluster lease since it last started. */
  ghost predicate Won(c: Config, h: History, i: nat)
    requires Valid(c, h)
  {
    h.Then? && (
      || Wins(c, End(c, h.before), h.event, i)
      || (h.event != Start(i) && h.event != Crash(i) && Won(c, h.before, i)))
  }

  predicate PastCluster(p: Phase) { p.Trying? || p.Stuck? || p.Up? }

  lemma PastClusterAnswer(c: Config, w: World, q: nat, ok: bool, i: nat)
    requires q in w.requests && w.requests[q].node in w.nodes && i in w.nodes
    requires PastCluster(Answer(w, q, ok).nodes[i].phase)
    ensures || PastCluster(w.nodes[i].phase)
            || (ok && w.requests[q].node == i && w.requests[q].op.TryAcquire? && w.nodes[i].call == Sent(TryAcquire, q))
  {
  }

  /** Getting past the cluster lease takes a try-acquire that succeeded and was heard of. */
  lemma PastClusterStep(c: Config, w: World, e: Event, i: nat)
    requires CanDo(c, w, e) && i in w.nodes && i in c.clustered && i in Do(c, w, e).nodes
    requires PastCluster(Do(c, w, e).nodes[i].phase)
    ensures Wins(c, w, e, i) || (PastCluster(w.nodes[i].phase) && e != Start(i) && e != Crash(i))
  {
    hide Decision, Clock, Name, Answer, BlobAfter, Applies;
    if e.Land? {
      var r := w.requests[e.request];
      if Applies(w.lease, r) {
        PastClusterAnswer(c, w.(lease := Some(Stored(w.lease, r))), e.request, e.heard, i);
      } else {
        PastClusterAnswer(c, w, e.request, false, i);
      }
    } else if e.Lose? {
      PastClusterAnswer(c, w, e.request, false, i);
    }
  }

  lemma StepKeepsNodes(c: Config, w: World, e: Event)
    requires CanDo(c, w, e)
    ensures Do(c, w, e).nodes.Keys == w.nodes.Keys
  {
    hide DoCluster, DoBlob;
    if OfCluster(e) { ClusterKeepsBlob(c, w, e); } else { BlobKeepsCluster(c, w, e); }
  }

  lemma {:induction false} PastClusterHasWon(c: Config, h: History, i: nat)
    requires Valid(c, h) && i in c.clustered && i in End(c, h).nodes && PastCluster(End(c, h).nodes[i].phase)
    ensures Won(c, h, i)
  {
    hide CanDo, Do, Wins;
    if h.Then? {
      StepKeepsNodes(c, End(c, h.before), h.event);
      PastClusterStep(c, End(c, h.before), h.event, i);
      if !Wins(c, End(c, h.before), h.event, i) {
        PastClusterHasWon(c, h.before, i);
      }
    }
  }

  /** A lease is broken only by a clustered node that first won the cluster lease in this mount. */
  lemma BreakerHasWon(c: Config, h: History, e: Event)
    requires Valid(c, Then(h, e)) && (e.Break? || e.BreakFails?)
    ensures e.node in c.clustered && Won(c, h, e.node)
  {
    PhaseInOrder(c, h, e.node);
    PastClusterHasWon(c, h, e.node);
  }

  /** Node `i` had won the cluster lease when it failed to break a blob lease, or died about to break one. */
  ghost predicate HadWon(c: Config, h: History, i: nat)
    requires Valid(c, h)
  {
    h.Then? && (
      || HadWon(c, h.before, i)
      || ((h.event.BreakFails? || h.event.Crash?) && h.event.node == i && Won(c, h.before, i)))
  }

  /** A break that is still to arrive was sent by a clustered node that had won. */
  lemma {:induction false} LateBreakerHadWon(c: Config, h: History, i: nat)
    requires Valid(c, h) && LateBreak(i) in End(c, h).blob.late
    ensures i in c.clustered && HadWon(c, h, i)
  {
    hide CanDo, Do, Won;
    if h.Then? {
      var w, e := End(c, h.before), h.event;
      if LateBreak(i) in w.blob.late {
        LateBreakerHadWon(c, h.before, i);
      } else {
        NewlyLate(c, w, e, LateBreak(i));
        PhaseInOrder(c, h.before, i);
        PastClusterHasWon(c, h.before, i);
      }
    }
  }

  /**
    An active lease ends only by expiry, by a release of its own holder, or by a break of a clustered node that has won
    the cluster lease.  A break or release that its sender has given up may arrive late; such a breaker had won when it
    sent it.
  */
  lemma ActiveLeaseEndsBy(c: Config, h: History, e: Event)
    requires Valid(c, Then(h, e)) && End(c, h).blob.active && !End(c, Then(h, e)).blob.active
    ensures || e.Expire?
            || ((e.ReleaseBlob? || e.ReleaseFails?) && NewestOwner(End(c, h).blob) == Some(e.node))
            || ((e.Break? || e.BreakFails?) && e.node in c.clustered && Won(c, h, e.node))
            || (e.Late? && e.blobOp.LateRelease? && NewestOwner(End(c, h).blob) == Some(e.blobOp.node))
            || (e.Late? && e.blobOp.LateBreak? && e.blobOp.node in c.clustered && HadWon(c, h, e.blobOp.node))
  {
    hide CanDo, Do, Won, HadWon, PhaseOk, LateOk;
    ActiveEnds(c, End(c, h), e);
    if e.Break? || e.BreakFails? {
      BreakerHasWon(c, h, e);
    } else if e.ReleaseBlob? || e.ReleaseFails? {
      PhaseInOrder(c, h, e.node);
      NewestIsOwn(c, End(c, h), e.node);
    } else if e.Late? && e.blobOp.LateBreak? {
      LateBreakerHadWon(c, h, e.blobOp.node);
    } else if e.Late? {
      HistoryKeepsBlobInv(c, h);
      NewestIsLate(End(c, h).blob, e.blobOp);
    }
  }

  /** The node the newest lease id was issued to. */
  function NewestOwner(b: Blob): Option<nat> { if b.owners == [] then None else Some(b.owners[|b.owners| - 1]) }

  lemma NewestIsOwn(c: Config, w: World, i: nat)
    requires i in w.nodes && w.nodes[i].phase.Up? && w.nodes[i].phase.id == |w.blob.owners|
    requires PhaseOk(c, i, w.nodes[i].phase, w.blob.owners)
    ensures NewestOwner(w.blob) == Some(i)
  {
  }

  lemma NewestIsLate(b: Blob, op: BlobOp)
    requires op.LateRelease? && op.id == |b.owners| && LateOk(op, b.owners)
    ensures NewestOwner(b) == Some(op.node)
  {
  }

  lemma ActiveEnds(c: Config, w: World, e: Event)
    requires CanDo(c, w, e) && w.blob.active && !Do(c, w, e).blob.active
    ensures e.Expire? || e.Break? || e.BreakFails? || e.ReleaseBlob? || e.ReleaseFails? || e.Late?
    ensures e.ReleaseBlob? || e.ReleaseFails? ==>
              e.node in w.nodes && w.nodes[e.node].phase.Up? && w.nodes[e.node].phase.id == |w.blob.owners|
    ensures e.Late? ==> e.blobOp in w.blob.late
    ensures e.Late? ==> e.blobOp.LateBreak? || (e.blobOp.LateRelease? && e.blobOp.id == |w.blob.owners|)
  {
    hide CanCluster, DoCluster, NodeAfter;
    if OfCluster(e) { ClusterKeepsBlob(c, w, e); }
  }
}
