/**
  The recency index shared by both caches: a clock, the stamp of every page, and the evictable pages by stamp.

  The two indexes are proved to stay inverse and to refine a plain recency list.
*/
module Lru {
  import opened Common

  /** The specification: pages from least to most recently used, and which of them are clean. */
  datatype Recency = Recency(order: seq<nat>, clean: set<nat>) {

    function Touch(page: nat, isClean: bool): Recency {
      Recency(Without(order, page) + [page], if isClean then clean + {page} else clean - {page})
    }

    /** The least recently used clean page other than `protect`. */
    function Victim(protect: Option<nat>): Option<nat> { FirstClean(order, clean, protect) }

    function Drop(page: nat): Recency { Recency(Without(order, page), clean - {page}) }
  }

  /** The pages of a recency list. */
  function Listed(r: Recency): set<nat> { set p | p in r.order }

  function Without(s: seq<nat>, page: nat): (r: seq<nat>)
    ensures forall q :: q in r <==> q in s && q != page
  {
    if s == [] then []
    else if s[0] == page then Without(s[1..], page)
    else [s[0]] + Without(s[1..], page)
  }

  function FirstClean(order: seq<nat>, clean: set<nat>, protect: Option<nat>): (r: Option<nat>)
    ensures r.Some? ==> r.value in order && r.value in clean && r != protect
    ensures r.None? ==> forall p | p in order && p in clean :: Some(p) == protect
  {
    if order == [] then None
    else if order[0] in clean && Some(order[0]) != protect then Some(order[0])
    else FirstClean(order[1..], clean, protect)
  }

  /** Nothing before the victim could have been chosen, so the victim is determined by its place alone. */
  lemma {:induction false} FirstCleanAt(order: seq<nat>, clean: set<nat>, protect: Option<nat>, k: nat)
    requires k < |order| && order[k] in clean && Some(order[k]) != protect
    requires forall i | 0 <= i < k :: order[i] in clean ==> Some(order[i]) == protect
    ensures FirstClean(order, clean, protect) == Some(order[k])
  {
    if k > 0 {
      assert order[0] in clean ==> Some(order[0]) == protect;
      forall i | 0 <= i < k - 1 ensures order[1..][i] in clean ==> Some(order[1..][i]) == protect {
        assert order[1..][i] == order[i + 1];
      }
      FirstCleanAt(order[1..], clean, protect, k - 1);
    }
  }

  // ----- Older and newer -----

  /** Page `a` was used before page `b`. */
  ghost predicate Before(order: seq<nat>, a: nat, b: nat) {
    exists i, j :: 0 <= i < j < |order| && order[i] == a && order[j] == b
  }

  lemma BeforeTail(order: seq<nat>, a: nat, b: nat)
    requires order != []
    ensures Before(order[1..], a, b) ==> Before(order, a, b)
    ensures a == order[0] && b in order[1..] ==> Before(order, a, b)
  {
    if Before(order[1..], a, b) {
      var i, j :| 0 <= i < j < |order[1..]| && order[1..][i] == a && order[1..][j] == b;
      assert order[i + 1] == a && order[j + 1] == b;
    }
    if a == order[0] && b in order[1..] {
      var j :| 0 <= j < |order[1..]| && order[1..][j] == b;
      assert order[j + 1] == b;
    }
  }

  /** The victim is older than every other page that could go. */
  lemma {:induction false} VictimIsOldest(order: seq<nat>, clean: set<nat>, protect: Option<nat>, q: nat)
    requires q in order && q in clean && Some(q) != protect
    ensures var v := FirstClean(order, clean, protect); v.Some? && (v.value == q || Before(order, v.value, q))
  {
    BeforeTail(order, order[0], q);
    if !(order[0] in clean && Some(order[0]) != protect) {
      VictimIsOldest(order[1..], clean, protect, q);
      BeforeTail(order, FirstClean(order[1..], clean, protect).value, q);
    }
  }

  /** Dropping a page keeps the order of the others. */
  lemma {:induction false} WithoutKeepsOrder(order: seq<nat>, page: nat, a: nat, b: nat)
    requires Before(Without(order, page), a, b)
    ensures Before(order, a, b)
  {
    if order == [] {
    } else if order[0] == page {
      WithoutKeepsOrder(order[1..], page, a, b);
      BeforeTail(order, a, b);
    } else {
      var w := Without(order[1..], page);
      var i, j :| 0 <= i < j < |[order[0]] + w| && ([order[0]] + w)[i] == a && ([order[0]] + w)[j] == b;
      assert w[j - 1] == b && b in order[1..];
      if i > 0 {
        assert w[i - 1] == a;
        WithoutKeepsOrder(order[1..], page, a, b);
      }
      BeforeTail(order, a, b);
    }
  }

  /** Whatever is in order in `now` was so in `was`. */
  ghost predicate Suborder(now: seq<nat>, was: seq<nat>) { forall a, b | Before(now, a, b) :: Before(was, a, b) }

  /** Of the pages of `start`, those not in `left` were all used before every page of `left` that could have gone. */
  ghost predicate OldestGone(start: Recency, left: set<nat>, protect: Option<nat>) {
    forall e, q | e in start.order && e !in left && q in left && q in start.clean && Some(q) != protect ::
      Before(start.order, e, q)
  }

  /** What victims taken from `start` leave. */
  ghost predicate Popped(start: Recency, now: Recency, protect: Option<nat>) {
    Suborder(now.order, start.order) && now.clean == start.clean * Listed(now) && OldestGone(start, Listed(now), protect)
  }

  lemma PoppedNone(r: Recency, protect: Option<nat>)
    requires r.clean <= Listed(r)
    ensures Popped(r, r, protect)
  {
  }

  lemma PoppedMore(start: Recency, r: Recency, protect: Option<nat>, v: nat)
    requires Popped(start, r, protect) && r.Victim(protect) == Some(v)
    ensures Popped(start, r.Drop(v), protect)
  {
    hide Before, Without, FirstClean;
    DropLists(r, v);
    var left := Listed(r.Drop(v));
    forall e, q | e in start.order && e !in left && q in left && q in start.clean && Some(q) != protect
      ensures Before(start.order, e, q)
    {
      if e == v {
        assert q in r.order && q in r.clean && q != v;
        VictimIsOldest(r.order, r.clean, protect, q);
      }
    }
    forall a, b | Before(r.Drop(v).order, a, b) ensures Before(start.order, a, b) {
      WithoutKeepsOrder(r.order, v, a, b);
    }
  }

  /** Pages in increasing order. */
  ghost predicate Ascending(order: seq<nat>) { forall i, j | 0 <= i < j < |order| :: order[i] < order[j] }

  /** Touching pages in increasing order lists them so. */
  lemma TouchAscending(r: Recency, page: nat, clean: bool)
    requires Ascending(r.order) && forall q | q in Listed(r) :: q < page
    ensures Ascending(r.Touch(page, clean).order)
  {
    assert page !in Listed(r);
    WithoutAbsent(r.order, page);
    forall i | 0 <= i < |r.order| ensures r.order[i] < page { assert r.order[i] in Listed(r); }
  }

  lemma {:induction false} WithoutAbsent(order: seq<nat>, page: nat)
    requires page !in order
    ensures Without(order, page) == order
  {
    if order != [] { WithoutAbsent(order[1..], page); }
  }

  /** The page used last. */
  function Newest(r: Recency): Option<nat> { if r.order == [] then None else Some(r.order[|r.order| - 1]) }

  lemma {:induction false} WithoutKeepsNewest(order: seq<nat>, page: nat)
    requires order != [] && order[|order| - 1] != page
    ensures Without(order, page) != [] && Without(order, page)[|Without(order, page)| - 1] == order[|order| - 1]
  {
    if |order| > 1 { WithoutKeepsNewest(order[1..], page); }
  }

  /** Dropping another page keeps the newest, and touching a page makes it the newest. */
  lemma NewestStays(r: Recency, page: nat, clean: bool)
    ensures Newest(r).Some? && Newest(r) != Some(page) ==> Newest(r.Drop(page)) == Newest(r)
    ensures Newest(r.Touch(page, clean)) == Some(page)
  {
    if r.order != [] && Newest(r) != Some(page) { WithoutKeepsNewest(r.order, page); }
  }

  // ----- The stamps along the list -----

  /** Every listed page has a stamp, and the stamps increase along the list, so no page is listed twice. */
  ghost predicate Ordered(order: seq<nat>, stamps: map<nat, nat>) {
    && (forall p | p in order :: p in stamps)
    && (forall i, j | 0 <= i < j < |order| :: stamps[order[i]] < stamps[order[j]])
  }

  lemma {:induction false} DropOrdered(order: seq<nat>, page: nat, stamps: map<nat, nat>)
    requires Ordered(order, stamps)
    ensures Ordered(Without(order, page), stamps)
  {
    if order != [] {
      TailOrdered(order, stamps);
      DropOrdered(order[1..], page, stamps);
      var w := Without(order[1..], page);
      forall q | q in w ensures q in stamps && stamps[order[0]] < stamps[q] { assert q in order[1..]; }
      HeadOrdered(order[0], w, stamps);
    }
  }

  lemma TailOrdered(order: seq<nat>, stamps: map<nat, nat>)
    requires order != [] && Ordered(order, stamps)
    ensures Ordered(order[1..], stamps) && forall q | q in order[1..] :: q in stamps && stamps[order[0]] < stamps[q]
  {
    forall q | q in order[1..] ensures q in stamps && stamps[order[0]] < stamps[q] {
      var k :| 0 <= k < |order[1..]| && order[1..][k] == q;
      assert order[k + 1] == q;
    }
  }

  lemma HeadOrdered(first: nat, rest: seq<nat>, stamps: map<nat, nat>)
    requires Ordered(rest, stamps) && first in stamps && forall q | q in rest :: stamps[first] < stamps[q]
    ensures Ordered([first] + rest, stamps)
  {
  }

  /** Restamping a page that is not listed changes nothing. */
  lemma RestampOrdered(order: seq<nat>, page: nat, stamps: map<nat, nat>, s: nat)
    requires Ordered(order, stamps) && page !in order
    ensures Ordered(order, stamps[page := s])
  {
  }

  lemma AppendOrdered(order: seq<nat>, page: nat, stamps: map<nat, nat>)
    requires Ordered(order, stamps) && page in stamps && forall p | p in order :: stamps[p] < stamps[page]
    ensures Ordered(order + [page], stamps)
  {
  }

  // ----- The two indexes -----

  /** `byPage` stamps exactly the listed pages, along the list, with stamps up to `clock`. */
  ghost predicate StampsOk(r: Recency, byPage: map<nat, nat>, clock: nat) {
    && Ordered(r.order, byPage)
    && (forall p | p in byPage :: p in r.order && byPage[p] <= clock)
  }

  /** `evictable` is the inverse of `byPage` on the clean pages. */
  ghost predicate Inverse(r: Recency, byPage: map<nat, nat>, evictable: map<nat, nat>) {
    && (forall s | s in evictable :: evictable[s] in r.clean)
    && (forall s | s in evictable :: evictable[s] in byPage && byPage[evictable[s]] == s)
    && (forall p | p in r.clean :: p in byPage && byPage[p] in evictable && evictable[byPage[p]] == p)
  }

  lemma TouchStamps(r: Recency, byPage: map<nat, nat>, clock: nat, page: nat, clean: bool)
    requires StampsOk(r, byPage, clock)
    ensures StampsOk(r.Touch(page, clean), byPage[page := clock + 1], clock + 1)
  {
    var w := Without(r.order, page);
    DropOrdered(r.order, page, byPage);
    RestampOrdered(w, page, byPage, clock + 1);
    AppendOrdered(w, page, byPage[page := clock + 1]);
  }

  /** What `touch` leaves in the evictable index. */
  function Reclassified(byPage: map<nat, nat>, evictable: map<nat, nat>, clock: nat, page: nat, clean: bool): map<nat, nat> {
    var rest := if page in byPage then evictable - {byPage[page]} else evictable;
    if clean then rest[clock + 1 := page] else rest
  }

  /** No two pages share a stamp. */
  lemma StampsDiffer(r: Recency, byPage: map<nat, nat>, clock: nat, p: nat, q: nat)
    requires StampsOk(r, byPage, clock) && p in byPage && q in byPage && byPage[p] == byPage[q]
    ensures p == q
  {
  }

  lemma TouchInverse(r: Recency, byPage: map<nat, nat>, evictable: map<nat, nat>, clock: nat, page: nat, clean: bool)
    requires StampsOk(r, byPage, clock) && Inverse(r, byPage, evictable)
    ensures Inverse(r.Touch(page, clean), byPage[page := clock + 1], Reclassified(byPage, evictable, clock, page, clean))
  {
    hide Without, Ordered;
    var e := Reclassified(byPage, evictable, clock, page, clean);
    assert forall s | s in e :: s == clock + 1 || evictable[s] != page;
    forall p | p in r.clean && p != page ensures byPage[p] in e && e[byPage[p]] == p {
      if page in byPage && byPage[p] == byPage[page] { StampsDiffer(r, byPage, clock, page, p); }
    }
  }

  lemma EvictableWithin(r: Recency, byPage: map<nat, nat>, evictable: map<nat, nat>, clock: nat)
    requires StampsOk(r, byPage, clock) && Inverse(r, byPage, evictable)
    ensures forall s | s in evictable :: s <= clock
  {
  }

  lemma DropStamps(r: Recency, byPage: map<nat, nat>, clock: nat, page: nat)
    requires StampsOk(r, byPage, clock)
    ensures StampsOk(r.Drop(page), byPage - {page}, clock)
  {
    DropOrdered(r.order, page, byPage);
    var w := Without(r.order, page);
    forall i, j | 0 <= i < j < |w| ensures (byPage - {page})[w[i]] < (byPage - {page})[w[j]] {
      assert w[i] in w && w[j] in w;
    }
  }

  lemma DropInverse(r: Recency, byPage: map<nat, nat>, evictable: map<nat, nat>, key: nat)
    requires Inverse(r, byPage, evictable) && key in evictable
    ensures Inverse(r.Drop(evictable[key]), byPage - {evictable[key]}, evictable - {key})
  {
  }

  /** The smallest evictable stamp names the victim of the recency list. */
  lemma VictimAt(r: Recency, byPage: map<nat, nat>, evictable: map<nat, nat>, clock: nat, protect: Option<nat>, key: nat)
    requires StampsOk(r, byPage, clock) && Inverse(r, byPage, evictable)
    requires key in evictable && Some(evictable[key]) != protect
    requires forall s | s in evictable && s < key :: Some(evictable[s]) == protect
    ensures r.Victim(protect) == Some(evictable[key])
  {
    var page := evictable[key];
    var k :| 0 <= k < |r.order| && r.order[k] == page;
    forall i | 0 <= i < k ensures r.order[i] in r.clean ==> Some(r.order[i]) == protect {
      if r.order[i] in r.clean {
        assert byPage[r.order[i]] < key && evictable[byPage[r.order[i]]] == r.order[i];
      }
    }
    FirstCleanAt(r.order, r.clean, protect, k);
  }

  lemma NoVictim(r: Recency, byPage: map<nat, nat>, evictable: map<nat, nat>, protect: Option<nat>)
    requires Inverse(r, byPage, evictable)
    requires forall s | s in evictable :: Some(evictable[s]) == protect
    ensures r.Victim(protect) == None
  {
  }

  lemma CleanProtected(r: Recency, byPage: map<nat, nat>, evictable: map<nat, nat>, protect: Option<nat>)
    requires Inverse(r, byPage, evictable)
    requires forall s | s in evictable :: Some(evictable[s]) == protect
    ensures forall p | p in r.clean :: Some(p) == protect
  {
  }

  lemma TouchLists(r: Recency, page: nat, clean: bool)
    ensures Listed(r.Touch(page, clean)) == Listed(r) + {page}
  {
  }

  lemma DropLists(r: Recency, page: nat)
    ensures Listed(r.Drop(page)) == Listed(r) - {page}
  {
  }

  class Lru {
    /** Monotonic access clock. */
    var clock: nat
    /** Recency stamp of every present page. */
    var byPage: map<nat, nat>
    /** Clean pages by recency stamp. */
    var evictable: map<nat, nat>
    ghost var model: Recency

    ghost predicate Valid()
      reads this
    {
      StampsOk(model, byPage, clock) && Inverse(model, byPage, evictable)
    }

    constructor ()
      ensures Valid() && model == Recency([], {})
    {
      clock := 0;
      byPage := map[];
      evictable := map[];
      model := Recency([], {});
    }

    predicate Contains(page: nat)
      requires Valid()
      reads this
      ensures Contains(page) <==> page in Listed(model)
    {
      page in byPage
    }

    method Touch(page: nat, clean: bool)
      requires Valid()
      modifies this
      ensures Valid() && model == old(model).Touch(page, clean)
      ensures Listed(model) == old(Listed(model)) + {page}
    {
      hide StampsOk, Inverse, Without;
      TouchLists(model, page, clean);
      TouchStamps(model, byPage, clock, page, clean);
      TouchInverse(model, byPage, evictable, clock, page, clean);
      if page in byPage {
        evictable := evictable - {byPage[page]};
      }
      clock := clock + 1;
      var s := clock;
      byPage := byPage[page := s];
      if clean {
        evictable := evictable[s := page];
      }
      model := model.Touch(page, clean);
    }

    method PopLru(protect: Option<nat>) returns (r: Option<nat>)
      requires Valid()
      modifies this
      ensures Valid() && r == old(model).Victim(protect)
      ensures model == if r.Some? then old(model).Drop(r.value) else old(model)
      ensures r.Some? ==> r.value in old(model.clean) && r != protect
      ensures r.Some? ==> r.value in old(Listed(model)) && Listed(model) == old(Listed(model)) - {r.value}
      ensures r.None? ==> forall p | p in model.clean :: Some(p) == protect
    {
      hide StampsOk, Inverse, Without, FirstClean;
      EvictableWithin(model, byPage, evictable, clock);
      var key := 0;
      while key <= clock && (key !in evictable || Some(evictable[key]) == protect)
        invariant 0 <= key <= clock + 1
        invariant forall s | s in evictable && s < key :: Some(evictable[s]) == protect
      {
        key := key + 1;
      }
      if key > clock {
        NoVictim(model, byPage, evictable, protect);
        CleanProtected(model, byPage, evictable, protect);
        return None;
      }
      var page := evictable[key];
      VictimAt(model, byPage, evictable, clock, protect, key);
      DropLists(model, page);
      DropStamps(model, byPage, clock, page);
      DropInverse(model, byPage, evictable, key);
      evictable := evictable - {key};
      byPage := byPage - {page};
      model := model.Drop(page);
      r := Some(page);
    }

    method Clear()
      requires Valid()
      modifies this
      ensures Valid() && model == Recency([], {})
    {
      clock := 0;
      byPage := map[];
      evictable := map[];
      model := Recency([], {});
    }
  }
}
