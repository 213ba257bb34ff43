/**
  Mounting through the two locks: the Kubernetes lease, taken by get then compare-and-swap, and the Azure blob
  lease, whose id fences every write.

  Any number of nodes run the mount protocol.  A get and the swap that follows it are separate steps, a request to
  either store may land long after it was sent, even after its sender has given it up or died, its answer may be lost,
  and the clock moves between any two steps.  Two hypotheses are about the configuration: holder identities are distinct
  (`Distinct`) and no clock runs ahead (`OneClock`).
*/
module Leases {
  import opened Common

  // ----- The cluster lease -----

  /** A Lease object; `version` is its `resourceVersion`, which every write changes. */
  datatype Lease = Lease(holder: Option<nat>, renewed: Option<nat>, version: nat)

  datatype Op = TryAcquire | Renew | Release

  /** A create (`base` is `None`) or a replace of the object read as `base`. */
  datatype Request = Request(node: nat, op: Op, base: Option<Lease>, holder: Option<nat>, renewed: Option<nat>)

  // ----- Nodes -----

  /** Where a node is in an API call: nothing, an object read, a request sent. */
  datatype Call = NoCall | Read(op: Op, lease: Option<Lease>) | Sent(op: Op, request: nat)

  /**
    Where a node is in mounting.  `Joining` wants the cluster lease, `Trying` wants the blob lease, `Stuck`
    found it held and may break it, `Up` is mounted with a blob lease id, `Leaving` gives the cluster lease back.
  */
  datatype Phase = Down | Joining | Trying(again: bool) | Stuck | Up(id: nat) | Leaving

  datatype Node = Node(phase: Phase, call: Call)

  /**
    The `clustered` nodes have a cluster lease, the others only the blob lease; each has a recovery timeout.  `names`
    gives holder identities other than the node's own number, `ahead` how far a node's clock runs ahead.
  */
  datatype Config = Config(clustered: set<nat>, timeouts: map<nat, nat>, names: map<nat, nat>, ahead: map<nat, nat>)

  /** A node's holder identity. */
  function Name(c: Config, i: nat): nat { if i in c.names then c.names[i] else i }

  /** What a node's clock shows. */
  function Clock(c: Config, i: nat, now: nat): nat { now + if i in c.ahead then c.ahead[i] else 0 }

  ghost predicate Distinct(c: Config) { forall i, j: nat :: Name(c, i) == Name(c, j) ==> i == j }

  predicate OneClock(c: Config) { c.ahead == map[] }

  /** A blob lease request whose sender no longer waits for it. */
  datatype BlobOp = LateAcquire(node: nat) | LateBreak(node: nat) | LateRelease(node: nat, id: nat) | LateRenew(node: nat, id: nat)

  /**
    The blob's lease.  `owners[k]` is the node that was issued lease id `k + 1`, so the newest id is `|owners|`; `active`
    says whether that lease is in force, `renewable` whether it may be renewed once it has expired.  `late` holds the
    requests that may still arrive, `log` the lease id of every write the blob has accepted.
  */
  datatype Blob = Blob(owners: seq<nat>, active: bool, renewable: bool, late: multiset<BlobOp>, log: seq<nat>)

  datatype World = World(now: nat, lease: Option<Lease>, requests: map<nat, Request>, nodes: map<nat, Node>, blob: Blob)

  /**
    `heard` and `applied` tell an answer that was lost from a request that has not taken effect.  A request given up
    stays in flight: `Land` or `Late` is its arrival.
  */
  datatype Event =
    | Tick
    | Start(node: nat)
    | Get(node: nat, op: Op)
    | GetFails(node: nat, op: Op)
    | Decide(node: nat, request: nat)
    | Land(request: nat, heard: bool)
    | Lose(request: nat)
    | GiveUp(request: nat)
    | AcquireBlob(node: nat)
    | AcquireFails(node: nat, applied: bool)
    | Break(node: nat)
    | BreakFails(node: nat, applied: bool)
    | Write(id: nat)
    | RenewBlob(node: nat)
    | RenewFails(node: nat)
    | ReleaseBlob(node: nat)
    | ReleaseFails(node: nat, applied: bool)
    | Late(blobOp: BlobOp)
    | Expire
    | Crash(node: nat)

  // ----- The cluster lease calls -----

  /** `age_of`: how long ago a time was, or nothing if it is absent or in the future. */
  function Age(renewed: Option<nat>, now: nat): Option<nat> {
    if renewed.Some? && renewed.value <= now then Some(now - renewed.value) else None
  }

  predicate HeldBy(lease: Lease, node: nat) { lease.holder == Some(node) }

  /**
    What a node does with the object it read: claim it (`Some(Some(node))`), clear it (`Some(None)`), or leave
    it alone (`None`).
  */
  function Decision(op: Op, seen: Option<Lease>, node: nat, timeout: nat, now: nat): Option<Option<nat>> {
    match op
    case TryAcquire =>
      if seen.None? then Some(Some(node))
      else if HeldBy(seen.value, node) || seen.value.holder.None? then Some(Some(node))
      else
        var age := Age(seen.value.renewed, now);
        if age.Some? && age.value < timeout then None else Some(Some(node))
    case Renew =>
      if seen.None? || HeldBy(seen.value, node) then Some(Some(node)) else None
    case Release =>
      if seen.Some? && HeldBy(seen.value, node) then Some(None) else None
  }

  /** Which API calls a node may be making. */
  predicate MayCall(n: Node, op: Op, clustered: bool) {
    match op
    case TryAcquire => n.phase.Joining?
    case Renew => n.phase.Up? && clustered
    case Release => n.phase.Leaving?
  }

  /** The end of a call: an acquisition goes on or gives up, a renewal is best effort, a release ends the mount. */
  function AfterCall(n: Node, op: Op, ok: bool): Node {
    match op
    case TryAcquire =>
      if n.phase.Joining? then Node(if ok then Trying(false) else Down, NoCall) else n.(call := NoCall)
    case Renew => n.(call := NoCall)
    case Release => if n.phase.Leaving? then Node(Down, NoCall) else n.(call := NoCall)
  }

  /** The server applies a create only if there is no object, a replace only if it has not changed. */
  predicate Applies(lease: Option<Lease>, r: Request) {
    if r.base.None? then lease.None? else lease.Some? && lease.value.version == r.base.value.version
  }

  function Stored(lease: Option<Lease>, r: Request): Lease {
    Lease(r.holder, r.renewed, if lease.None? then 0 else lease.value.version + 1)
  }

  /** The request is done; its sender, if still waiting for it, learns the outcome. */
  function Answer(w: World, q: nat, ok: bool): World
    requires q in w.requests && w.requests[q].node in w.nodes
  {
    var i := w.requests[q].node;
    var n := w.nodes[i];
    var n' := if n.call == Sent(w.requests[q].op, q) then AfterCall(n, w.requests[q].op, ok) else n;
    SetNode(w, i, n').(requests := w.requests - {q})
  }

  // ----- Steps -----

  function SetNode(w: World, i: nat, n: Node): World { w.(nodes := w.nodes[i := n]) }

  /** What a mount that cannot go on does: a clustered node gives its cluster lease back. */
  function Rollback(c: Config, i: nat): Phase { if i in c.clustered then Leaving else Down }

  /** Steps of the clock and of the cluster lease; the others are of the blob lease, or of a node as a whole. */
  predicate OfCluster(e: Event) {
    e.Tick? || e.Start? || e.Get? || e.GetFails? || e.Decide? || e.Land? || e.Lose? || e.GiveUp?
  }

  ghost predicate CanCluster(c: Config, w: World, e: Event)
    requires OfCluster(e)
  {
    match e
    case Tick => true
    case Start(i) => i in w.nodes && w.nodes[i] == Node(Down, NoCall)
    case Get(i, op) => i in w.nodes && w.nodes[i].call.NoCall? && MayCall(w.nodes[i], op, i in c.clustered)
    case GetFails(i, op) => i in w.nodes && w.nodes[i].call.NoCall? && MayCall(w.nodes[i], op, i in c.clustered)
    case Decide(i, q) => i in w.nodes && i in c.timeouts && w.nodes[i].call.Read? && q !in w.requests
    case Land(q, _) => q in w.requests && w.requests[q].node in w.nodes
    case Lose(q) => q in w.requests && w.requests[q].node in w.nodes
    case GiveUp(q) =>
      && q in w.requests && w.requests[q].node in w.nodes
      && w.nodes[w.requests[q].node].call == Sent(w.requests[q].op, q)
  }

  ghost predicate CanBlob(w: World, e: Event)
    requires !OfCluster(e)
  {
    match e
    case AcquireBlob(i) => i in w.nodes && w.nodes[i].phase.Trying?
    case AcquireFails(i, applied) => i in w.nodes && w.nodes[i].phase.Trying? && (applied ==> !w.blob.active)
    case Break(i) => i in w.nodes && w.nodes[i].phase.Stuck?
    case BreakFails(i, _) => i in w.nodes && w.nodes[i].phase.Stuck?
    case Write(id) => 0 < id <= |w.blob.owners|
    case RenewBlob(i) => i in w.nodes && w.nodes[i].phase.Up?
    case RenewFails(i) => i in w.nodes && w.nodes[i].phase.Up?
    case ReleaseBlob(i) => i in w.nodes && w.nodes[i].phase.Up? && w.nodes[i].call.NoCall?
    case ReleaseFails(i, _) => i in w.nodes && w.nodes[i].phase.Up? && w.nodes[i].call.NoCall?
    case Late(op) => op in w.blob.late
    case Expire => w.blob.active
    case Crash(i) => i in w.nodes
  }

  ghost predicate CanDo(c: Config, w: World, e: Event) { if OfCluster(e) then CanCluster(c, w, e) else CanBlob(w, e) }

  /** A new blob lease id, issued to node `i`. */
  function Issue(b: Blob, i: nat): Blob { b.(owners := b.owners + [i], active := true, renewable := true) }

  /** The blob lease is ended and can never be renewed. */
  function Ended(b: Blob): Blob { b.(active := false, renewable := false) }

  /** A release takes effect only under the newest id, a renewal only while it is still allowed. */
  function Released(b: Blob, id: nat): Blob { if id == |b.owners| then Ended(b) else b }

  function Renewed(b: Blob, id: nat): Blob { if id == |b.owners| && b.renewable then b.(active := true) else b }

  /** Requests are left behind. */
  function Delayed(b: Blob, ops: multiset<BlobOp>): Blob { b.(late := b.late + ops) }

  /** The requests that a node that fails or dies may leave behind. */
  function InFlight(i: nat, phase: Phase): multiset<BlobOp> {
    match phase
    case Trying(_) => multiset{LateAcquire(i)}
    case Stuck => multiset{LateBreak(i)}
    case Up(id) => multiset{LateRelease(i, id), LateRenew(i, id)}
    case _ => multiset{}
  }

  /** A request arrives whose sender no longer waits. */
  function Arrives(b: Blob, op: BlobOp): Blob {
    var d := b.(late := b.late - multiset{op});
    match op
    case LateAcquire(i) => if d.active then d else Issue(d, i)
    case LateBreak(_) => Ended(d)
    case LateRelease(_, id) => Released(d, id)
    case LateRenew(_, id) => Renewed(d, id)
  }

  ghost function DoCluster(c: Config, w: World, e: Event): World
    requires OfCluster(e) && CanCluster(c, w, e)
  {
    match e
    case Tick => w.(now := w.now + 1)
    case Start(i) => SetNode(w, i, Node(if i in c.clustered then Joining else Trying(false), NoCall))
    case Get(i, op) => SetNode(w, i, w.nodes[i].(call := Read(op, w.lease)))
    case GetFails(i, op) => SetNode(w, i, AfterCall(w.nodes[i], op, false))
    case Decide(i, q) =>
      var n := w.nodes[i];
      var now := Clock(c, i, w.now);
      var d := Decision(n.call.op, n.call.lease, Name(c, i), c.timeouts[i], now);
      if d.None? then SetNode(w, i, AfterCall(n, n.call.op, false))
      else
        var r := Request(i, n.call.op, n.call.lease, d.value, if d.value.Some? then Some(now) else None);
        SetNode(w, i, n.(call := Sent(n.call.op, q))).(requests := w.requests[q := r])
    case Land(q, heard) =>
      var r := w.requests[q];
      if Applies(w.lease, r) then Answer(w.(lease := Some(Stored(w.lease, r))), q, heard)
      else Answer(w, q, false)
    case Lose(q) => Answer(w, q, false)
    case GiveUp(q) =>
      var i := w.requests[q].node;
      SetNode(w, i, AfterCall(w.nodes[i], w.requests[q].op, false))
  }

  /** What a step does to the blob's lease. */
  ghost function BlobAfter(w: World, e: Event): Blob
    requires !OfCluster(e) && CanBlob(w, e)
  {
    var b := w.blob;
    match e
    case AcquireBlob(i) => if b.active then b else Issue(b, i)
    case AcquireFails(i, applied) => if applied then Issue(b, i) else Delayed(b, multiset{LateAcquire(i)})
    case Break(i) => Ended(b)
    case BreakFails(i, applied) => if applied then Ended(b) else Delayed(b, multiset{LateBreak(i)})
    case Write(id) => if Accepts(b, id) then b.(log := b.log + [id]) else b
    case RenewBlob(i) => Renewed(b, w.nodes[i].phase.id)
    case RenewFails(i) => Delayed(b, multiset{LateRenew(i, w.nodes[i].phase.id)})
    case ReleaseBlob(i) => Released(b, w.nodes[i].phase.id)
    case ReleaseFails(i, applied) =>
      if applied then Released(b, w.nodes[i].phase.id) else Delayed(b, multiset{LateRelease(i, w.nodes[i].phase.id)})
    case Late(op) => Arrives(b, op)
    case Expire => b.(active := false)
    case Crash(i) => Delayed(b, InFlight(i, w.nodes[i].phase))
  }

  /** What a step does to the node that takes it. */
  ghost function NodeAfter(c: Config, w: World, e: Event): Node
    requires !OfCluster(e) && CanBlob(w, e) && !e.Write? && !e.Late? && !e.Expire?
  {
    var n := w.nodes[e.node];
    match e
    case AcquireBlob(i) =>
      if !w.blob.active then n.(phase := Up(|w.blob.owners| + 1))
      else if n.phase.again || i !in c.clustered then n.(phase := Rollback(c, i))
      else n.(phase := Stuck)
    case AcquireFails(i, _) => n.(phase := Rollback(c, i))
    case Break(_) => n.(phase := Trying(true))
    case BreakFails(_, _) => n.(phase := Down)
    case ReleaseBlob(i) => n.(phase := Rollback(c, i))
    case ReleaseFails(i, _) => n.(phase := Rollback(c, i))
    case Crash(_) => Node(Down, NoCall)
    case _ => n
  }

  ghost function DoBlob(c: Config, w: World, e: Event): World
    requires !OfCluster(e) && CanBlob(w, e)
  {
    var v := w.(blob := BlobAfter(w, e));
    if e.Write? || e.Late? || e.Expire? then v else SetNode(v, e.node, NodeAfter(c, w, e))
  }

  ghost function Do(c: Config, w: World, e: Event): World
    requires CanDo(c, w, e)
  {
    if OfCluster(e) then DoCluster(c, w, e) else DoBlob(c, w, e)
  }

  /** The two sides leave each other alone. */
  lemma ClusterKeepsBlob(c: Config, w: World, e: Event)
    requires CanDo(c, w, e) && OfCluster(e)
    ensures Do(c, w, e).blob == w.blob && Do(c, w, e).nodes.Keys == w.nodes.Keys
    ensures Do(c, w, e).lease != w.lease ==>
              e.Land? && Applies(w.lease, w.requests[e.request]) && Do(c, w, e).lease == Some(Stored(w.lease, w.requests[e.request]))
  {
    hide Decision, AfterCall, Applies, Clock, Name;
  }

  lemma BlobKeepsCluster(c: Config, w: World, e: Event)
    requires CanDo(c, w, e) && !OfCluster(e)
    ensures Do(c, w, e) == w.(nodes := Do(c, w, e).nodes, blob := BlobAfter(w, e))
    ensures Do(c, w, e).nodes.Keys == w.nodes.Keys
  {
    hide BlobAfter, NodeAfter;
  }

  /** The blob accepts a write, however late it arrives, only under the lease id now in force. */
  predicate Accepts(b: Blob, id: nat) { b.active && id == |b.owners| }

  // ----- Invariants -----

  /** A set holder has a renewal time, and no renewal time is in the future. */
  predicate LeaseOk(l: Option<Lease>, now: nat) {
    l.Some? ==>
      && (l.value.holder.Some? ==> l.value.renewed.Some?)
      && (l.value.renewed.Some? ==> l.value.renewed.value <= now)
  }

  /** What was read is an earlier version of the lease, or the lease itself. */
  predicate SeenOk(seen: Option<Lease>, lease: Option<Lease>, now: nat) {
    && LeaseOk(seen, now)
    && (seen.Some? ==>
          && lease.Some?
          && seen.value.version <= lease.value.version
          && (seen.value.version == lease.value.version ==> seen == lease))
  }

  /** `node` may take the lease from whoever `base` says holds it. */
  predicate MayTake(base: Option<Lease>, node: nat, timeout: nat, now: nat) {
    || base.None?
    || base.value.holder.None?
    || base.value.holder == Some(node)
    || (base.value.renewed.Some? && base.value.renewed.value + timeout <= now)
  }

  /** What a request in flight may ask for. */
  predicate RequestOk(c: Config, r: Request, lease: Option<Lease>, now: nat) {
    && SeenOk(r.base, lease, now)
    && r.node in c.timeouts
    && (r.holder.Some? ==> r.holder == Some(Name(c, r.node)) && r.renewed.Some? && r.renewed.value <= now)
    && (r.holder.None? ==> r.op.Release? && r.renewed.None?)
    && (r.base.Some? && r.base.value.renewed.Some? && r.renewed.Some? ==> r.base.value.renewed.value <= r.renewed.value)
    && (r.op.TryAcquire? ==> MayTake(r.base, Name(c, r.node), c.timeouts[r.node], now))
    && (r.op.Renew? ==> r.base.None? || r.base.value.holder == Some(Name(c, r.node)))
    && (r.op.Release? ==> r.holder.None? && r.base.Some? && r.base.value.holder == Some(Name(c, r.node)))
  }

  /** A mounted node holds a blob lease id issued to it; only clustered nodes get stuck, join or leave. */
  predicate PhaseOk(c: Config, i: nat, phase: Phase, owners: seq<nat>) {
    && (phase.Up? ==> 0 < phase.id <= |owners| && owners[phase.id - 1] == i)
    && (phase.Stuck? || phase.Joining? || phase.Leaving? ==> i in c.clustered)
    && (phase.Trying? && phase.again ==> i in c.clustered)
  }

  predicate NodeOk(c: Config, i: nat, n: Node, lease: Option<Lease>, now: nat, owners: seq<nat>) {
    && (n.call.Read? ==> SeenOk(n.call.lease, lease, now))
    && PhaseOk(c, i, n.phase, owners)
  }

  ghost predicate RequestsOk(c: Config, w: World) {
    forall q | q in w.requests :: RequestOk(c, w.requests[q], w.lease, w.now)
  }

  ghost predicate NodesOk(c: Config, w: World) {
    forall i | i in w.nodes :: i in c.timeouts && NodeOk(c, i, w.nodes[i], w.lease, w.now, w.blob.owners)
  }

  /** Accepted writes come in the order their lease ids were issued. */
  ghost predicate LogOk(w: World) {
    && (forall k | 0 <= k < |w.blob.log| :: 0 < w.blob.log[k] <= |w.blob.owners|)
    && (forall j, k | 0 <= j < k < |w.blob.log| :: w.blob.log[j] <= w.blob.log[k])
  }

  ghost predicate Inv(c: Config, w: World) {
    && LeaseOk(w.lease, w.now)
    && RequestsOk(c, w)
    && NodesOk(c, w)
    && LogOk(w)
  }

  /** The part that is about the blob lease alone, and needs neither hypothesis. */
  ghost predicate BlobInv(c: Config, w: World) {
    && LogOk(w)
    && (forall i | i in w.nodes :: PhaseOk(c, i, w.nodes[i].phase, w.blob.owners))
    && (forall op | op in w.blob.late :: LateOk(op, w.blob.owners))
  }

  /** A late release is under an id issued to its sender. */
  predicate LateOk(op: BlobOp, owners: seq<nat>) {
    op.LateRelease? ==> 0 < op.id <= |owners| && owners[op.id - 1] == op.node
  }

  lemma EventKeepsBlobInv(c: Config, w: World, e: Event)
    requires BlobInv(c, w) && CanDo(c, w, e)
    ensures BlobInv(c, Do(c, w, e))
  {
    EventKeepsLog(c, w, e);
    forall i | i in Do(c, w, e).nodes ensures PhaseOk(c, i, Do(c, w, e).nodes[i].phase, Do(c, w, e).blob.owners) {
      EventKeepsPhase(c, w, e, i);
    }
    forall op | op in Do(c, w, e).blob.late ensures LateOk(op, Do(c, w, e).blob.owners) {
      OwnersGrow(c, w, e);
      if op in w.blob.late {
        assert LateOk(op, w.blob.owners);
      } else {
        NewlyLate(c, w, e, op);
        assert PhaseOk(c, e.node, w.nodes[e.node].phase, w.blob.owners);
      }
    }
  }

  lemma OwnersGrow(c: Config, w: World, e: Event)
    requires CanDo(c, w, e)
    ensures w.blob.owners <= Do(c, w, e).blob.owners
  {
    hide CanCluster, DoCluster, NodeAfter;
    if OfCluster(e) { ClusterKeepsBlob(c, w, e); }
  }

  lemma DelayedLate(b: Blob, ops: multiset<BlobOp>, op: BlobOp)
    ensures op in Delayed(b, ops).late ==> op in b.late || op in ops
  {
  }

  lemma ArrivedLate(b: Blob, o: BlobOp, op: BlobOp)
    ensures op in Arrives(b, o).late ==> op in b.late
  {
  }

  /** Only a node that fails or dies leaves a request behind, one of its own phase. */
  lemma NewlyLate(c: Config, w: World, e: Event, op: BlobOp)
    requires CanDo(c, w, e) && op in Do(c, w, e).blob.late && op !in w.blob.late
    ensures e.AcquireFails? || e.BreakFails? || e.RenewFails? || e.ReleaseFails? || e.Crash?
    ensures e.node in w.nodes && op in InFlight(e.node, w.nodes[e.node].phase)
    ensures op.LateBreak? ==> e.BreakFails? || e.Crash?
  {
    hide CanCluster, DoCluster, DoBlob, Delayed, Arrives;
    if OfCluster(e) {
      ClusterKeepsBlob(c, w, e);
    } else {
      BlobKeepsCluster(c, w, e);
      match e {
        case AcquireFails(i, _) => DelayedLate(w.blob, multiset{LateAcquire(i)}, op);
        case BreakFails(i, _) => DelayedLate(w.blob, multiset{LateBreak(i)}, op);
        case RenewFails(i) => DelayedLate(w.blob, multiset{LateRenew(i, w.nodes[i].phase.id)}, op);
        case ReleaseFails(i, _) => DelayedLate(w.blob, multiset{LateRelease(i, w.nodes[i].phase.id)}, op);
        case Crash(i) => DelayedLate(w.blob, InFlight(i, w.nodes[i].phase), op);
        case Late(o) => ArrivedLate(w.blob, o, op);
        case _ =>
      }
    }
  }

  lemma EventKeepsLog(c: Config, w: World, e: Event)
    requires LogOk(w) && CanDo(c, w, e)
    ensures LogOk(Do(c, w, e))
  {
    hide CanCluster, DoCluster, NodeAfter;
    if OfCluster(e) { ClusterKeepsBlob(c, w, e); }
  }

  lemma AnswerKeepsPhase(c: Config, w: World, q: nat, ok: bool, i: nat)
    requires q in w.requests && w.requests[q].node in w.nodes && i in Answer(w, q, ok).nodes
    requires i in w.nodes ==> PhaseOk(c, i, w.nodes[i].phase, w.blob.owners)
    ensures i in w.nodes && PhaseOk(c, i, Answer(w, q, ok).nodes[i].phase, w.blob.owners) && Answer(w, q, ok).blob == w.blob
  {
  }

  lemma IssueKeepsPhase(c: Config, w: World, e: Event, i: nat)
    requires CanDo(c, w, e) && (e.AcquireBlob? || e.AcquireFails?) && i in Do(c, w, e).nodes
    requires i in w.nodes ==> PhaseOk(c, i, w.nodes[i].phase, w.blob.owners)
    ensures i in w.nodes && PhaseOk(c, i, Do(c, w, e).nodes[i].phase, Do(c, w, e).blob.owners)
  {
  }

  lemma CallKeepsPhase(c: Config, w: World, e: Event, i: nat)
    requires CanDo(c, w, e) && (e.Get? || e.GetFails? || e.Decide? || e.Start? || e.GiveUp?) && i in Do(c, w, e).nodes
    requires i in w.nodes ==> PhaseOk(c, i, w.nodes[i].phase, w.blob.owners)
    ensures i in w.nodes && PhaseOk(c, i, Do(c, w, e).nodes[i].phase, Do(c, w, e).blob.owners)
  {
  }

  lemma EventKeepsPhase(c: Config, w: World, e: Event, i: nat)
    requires CanDo(c, w, e) && i in Do(c, w, e).nodes
    requires i in w.nodes ==> PhaseOk(c, i, w.nodes[i].phase, w.blob.owners)
    ensures i in w.nodes && PhaseOk(c, i, Do(c, w, e).nodes[i].phase, Do(c, w, e).blob.owners)
  {
    hide Answer, Decision, AfterCall, Applies, Delayed, Arrives, InFlight;
    if e.Land? {
      var r := w.requests[e.request];
      if Applies(w.lease, r) {
        AnswerKeepsPhase(c, w.(lease := Some(Stored(w.lease, r))), e.request, e.heard, i);
      } else {
        AnswerKeepsPhase(c, w, e.request, false, i);
      }
    } else if e.Lose? {
      AnswerKeepsPhase(c, w, e.request, false, i);
    } else if e.AcquireBlob? || e.AcquireFails? {
      IssueKeepsPhase(c, w, e, i);
    } else if e.Get? || e.GetFails? || e.Decide? || e.Start? || e.GiveUp? {
      CallKeepsPhase(c, w, e, i);
    } else if !e.Tick? {
      OtherKeepsPhase(c, w, e, i);
    }
  }

  lemma OtherKeepsPhase(c: Config, w: World, e: Event, i: nat)
    requires CanDo(c, w, e) && !OfCluster(e) && !e.AcquireBlob? && !e.AcquireFails? && i in Do(c, w, e).nodes
    requires i in w.nodes ==> PhaseOk(c, i, w.nodes[i].phase, w.blob.owners)
    ensures i in w.nodes && PhaseOk(c, i, Do(c, w, e).nodes[i].phase, Do(c, w, e).blob.owners)
  {
    hide BlobAfter;
    OwnersGrow(c, w, e);
  }

  // ----- Every step keeps the invariants -----

  /** `lease'` at `now'` is later than `lease` at `now`: the same object, or one with a higher version. */
  predicate Later(lease: Option<Lease>, now: nat, lease': Option<Lease>, now': nat) {
    && now <= now'
    && (lease == lease' || (lease'.Some? && (lease.Some? ==> lease.value.version < lease'.value.version)))
  }

  lemma RequestsStayOk(c: Config, w: World, w': World)
    requires RequestsOk(c, w) && Later(w.lease, w.now, w'.lease, w'.now)
    requires forall q | q in w'.requests :: q in w.requests && w'.requests[q] == w.requests[q]
    ensures RequestsOk(c, w')
  {
  }

  lemma NodesStayOk(c: Config, w: World, w': World, i: nat)
    requires NodesOk(c, w) && i in w.nodes && w'.nodes.Keys == w.nodes.Keys
    requires Later(w.lease, w.now, w'.lease, w'.now) && w.blob.owners <= w'.blob.owners
    requires forall j | j in w.nodes && j != i :: w'.nodes[j] == w.nodes[j]
    requires NodeOk(c, i, w'.nodes[i], w'.lease, w'.now, w'.blob.owners)
    ensures NodesOk(c, w')
  {
  }

  lemma AnswerKeepsInv(c: Config, w: World, v: World, q: nat, ok: bool)
    requires RequestsOk(c, w) && NodesOk(c, w) && q in w.requests && w.requests[q].node in w.nodes
    requires v == w.(lease := v.lease) && Later(w.lease, w.now, v.lease, w.now)
    ensures RequestsOk(c, Answer(v, q, ok)) && NodesOk(c, Answer(v, q, ok))
  {
    var t := Answer(v, q, ok);
    RequestsStayOk(c, w, t);
    var i := w.requests[q].node;
    assert NodeOk(c, i, w.nodes[i], w.lease, w.now, w.blob.owners);
    NodesStayOk(c, w, t, i);
  }

  lemma LandKeepsInv(c: Config, w: World, q: nat, heard: bool)
    requires Inv(c, w) && q in w.requests && w.requests[q].node in w.nodes
    ensures Inv(c, Do(c, w, Land(q, heard)))
  {
    var r := w.requests[q];
    assert RequestOk(c, r, w.lease, w.now);
    if Applies(w.lease, r) {
      var v := w.(lease := Some(Stored(w.lease, r)));
      AnswerKeepsInv(c, w, v, q, heard);
    } else {
      AnswerKeepsInv(c, w, w, q, false);
    }
  }

  lemma LoseKeepsInv(c: Config, w: World, q: nat)
    requires Inv(c, w) && q in w.requests && w.requests[q].node in w.nodes
    ensures Inv(c, Do(c, w, Lose(q)))
  {
    AnswerKeepsInv(c, w, w, q, false);
  }

  /** A decision taken on what was read asks only for what the rules allow. */
  lemma DecisionOk(c: Config, i: nat, op: Op, seen: Option<Lease>, lease: Option<Lease>, now: nat)
    requires i in c.timeouts && SeenOk(seen, lease, now)
    requires Decision(op, seen, Name(c, i), c.timeouts[i], now).Some?
    ensures var d := Decision(op, seen, Name(c, i), c.timeouts[i], now).value;
            RequestOk(c, Request(i, op, seen, d, if d.Some? then Some(now) else None), lease, now)
  {
  }

  /** Sending a request that is in order. */
  lemma SendKeepsInv(c: Config, w: World, i: nat, n: Node, q: nat, r: Request)
    requires Inv(c, w) && i in w.nodes && q !in w.requests
    requires NodeOk(c, i, n, w.lease, w.now, w.blob.owners) && RequestOk(c, r, w.lease, w.now)
    ensures Inv(c, SetNode(w, i, n).(requests := w.requests[q := r]))
  {
  }

  lemma DecideKeepsInv(c: Config, w: World, i: nat, q: nat)
    requires OneClock(c) && Inv(c, w) && CanDo(c, w, Decide(i, q))
    ensures Inv(c, Do(c, w, Decide(i, q)))
  {
    var n := w.nodes[i];
    assert NodeOk(c, i, n, w.lease, w.now, w.blob.owners);
    var d := Decision(n.call.op, n.call.lease, Name(c, i), c.timeouts[i], w.now);
    if d.Some? {
      DecisionOk(c, i, n.call.op, n.call.lease, w.lease, w.now);
      var r := Request(i, n.call.op, n.call.lease, d.value, if d.value.Some? then Some(w.now) else None);
      SendKeepsInv(c, w, i, n.(call := Sent(n.call.op, q)), q, r);
    } else {
      LocalKeepsInv(c, w, SetNode(w, i, AfterCall(n, n.call.op, false)), i);
    }
  }

  /** A step of one node that sends nothing: only its own record and the blob lease may change. */
  lemma LocalKeepsInv(c: Config, w: World, t: World, i: nat)
    requires Inv(c, w) && i in w.nodes
    requires t.now == w.now && t.lease == w.lease && t.requests == w.requests && t.blob.log == w.blob.log
    requires i in t.nodes && t.nodes == w.nodes[i := t.nodes[i]] && w.blob.owners <= t.blob.owners
    requires NodeOk(c, i, w.nodes[i], w.lease, w.now, w.blob.owners) ==> NodeOk(c, i, t.nodes[i], t.lease, t.now, t.blob.owners)
    ensures Inv(c, t)
  {
  }

  /** The blob steps of a node. */
  lemma BlobStepKeepsInv(c: Config, w: World, e: Event, i: nat)
    requires Inv(c, w) && CanDo(c, w, e)
    requires e == AcquireBlob(i) || e == AcquireFails(i, true) || e == AcquireFails(i, false)
    ensures Inv(c, Do(c, w, e))
  {
    LocalKeepsInv(c, w, Do(c, w, e), i);
  }

  lemma BreakStepKeepsInv(c: Config, w: World, e: Event, i: nat)
    requires Inv(c, w) && CanDo(c, w, e)
    requires || e == Break(i) || e == BreakFails(i, true) || e == BreakFails(i, false)
             || e == ReleaseBlob(i) || e == ReleaseFails(i, true) || e == ReleaseFails(i, false)
    ensures Inv(c, Do(c, w, e))
  {
    assert NodeOk(c, i, w.nodes[i], w.lease, w.now, w.blob.owners);
    LocalKeepsInv(c, w, Do(c, w, e), i);
  }

  lemma NodeStepKeepsInv(c: Config, w: World, e: Event, i: nat)
    requires Inv(c, w) && CanDo(c, w, e)
    requires e == Start(i) || (e.Get? && e.node == i) || (e.GetFails? && e.node == i) || e == Crash(i)
    ensures Inv(c, Do(c, w, e))
  {
    assert NodeOk(c, i, w.nodes[i], w.lease, w.now, w.blob.owners);
    LocalKeepsInv(c, w, Do(c, w, e), i);
  }

  lemma GiveUpKeepsInv(c: Config, w: World, q: nat)
    requires Inv(c, w) && CanDo(c, w, GiveUp(q))
    ensures Inv(c, Do(c, w, GiveUp(q)))
  {
    var i := w.requests[q].node;
    assert NodeOk(c, i, w.nodes[i], w.lease, w.now, w.blob.owners);
    LocalKeepsInv(c, w, Do(c, w, GiveUp(q)), i);
  }

  /** A step of the blob alone. */
  lemma BlobAloneKeepsInv(c: Config, w: World, t: World)
    requires Inv(c, w) && t == w.(blob := t.blob) && w.blob.owners <= t.blob.owners && LogOk(t)
    ensures Inv(c, t)
  {
  }

  lemma QuietStepKeepsInv(c: Config, w: World, e: Event)
    requires Inv(c, w) && CanDo(c, w, e) && (e.Late? || e.Write? || e.RenewBlob? || e.RenewFails? || e.Expire?)
    ensures Inv(c, Do(c, w, e))
  {
    hide BlobAfter, LogOk, RequestsOk, NodesOk, LeaseOk;
    EventKeepsLog(c, w, e);
    OwnersGrow(c, w, e);
    if e.RenewBlob? || e.RenewFails? { assert Do(c, w, e).nodes == w.nodes; }
    BlobAloneKeepsInv(c, w, Do(c, w, e));
  }

  lemma TickKeepsInv(c: Config, w: World)
    requires Inv(c, w)
    ensures Inv(c, Do(c, w, Tick))
  {
  }

  lemma EventKeepsInv(c: Config, w: World, e: Event)
    requires OneClock(c) && Inv(c, w) && CanDo(c, w, e)
    ensures Inv(c, Do(c, w, e))
  {
    hide Inv;
    match e {
      case Tick => TickKeepsInv(c, w);
      case Start(i) => NodeStepKeepsInv(c, w, e, i);
      case Get(i, _) => NodeStepKeepsInv(c, w, e, i);
      case GetFails(i, _) => NodeStepKeepsInv(c, w, e, i);
      case Decide(i, q) => DecideKeepsInv(c, w, i, q);
      case Land(q, heard) => LandKeepsInv(c, w, q, heard);
      case Lose(q) => LoseKeepsInv(c, w, q);
      case GiveUp(q) => GiveUpKeepsInv(c, w, q);
      case AcquireBlob(i) => BlobStepKeepsInv(c, w, e, i);
      case AcquireFails(i, _) => BlobStepKeepsInv(c, w, e, i);
      case Break(i) => BreakStepKeepsInv(c, w, e, i);
      case BreakFails(i, _) => BreakStepKeepsInv(c, w, e, i);
      case Write(_) => QuietStepKeepsInv(c, w, e);
      case RenewBlob(_) => QuietStepKeepsInv(c, w, e);
      case RenewFails(_) => QuietStepKeepsInv(c, w, e);
      case ReleaseBlob(i) => BreakStepKeepsInv(c, w, e, i);
      case ReleaseFails(i, _) => BreakStepKeepsInv(c, w, e, i);
      case Late(_) => QuietStepKeepsInv(c, w, e);
      case Expire => QuietStepKeepsInv(c, w, e);
      case Crash(i) => NodeStepKeepsInv(c, w, e, i);
    }
  }
}
