/**
  The write-back memory buffer (`BufferedBackend`) as a step machine over an inner store.

  Clients work a chunk at a time: a page is made resident by an unlocked load, then the chunk is served or
  applied under the lock.  Any number of clients, loads and flushes interleave, and loads and uploads move any
  set of bytes at a time.
*/
module Buffer {
  import opened Store

  /** A resident page: its bytes by device offset, and the sequence number of its last change. */
  datatype Page = Page(data: Image, dirty: bool, seqNo: nat)

  datatype Flight = Flight(page: nat, seqNo: nat, img: Image, landed: set<nat>)

  datatype Load = Load(page: nat, img: Image)

  datatype State = State(
    pg: Paging,
    inner: seq<Byte>,
    pages: map<nat, Page>,
    counter: nat,
    flights: map<nat, Flight>,
    loads: map<nat, Load>)
  {
    ghost predicate Shape() {
      && |inner| == |pg|
      && forall p | p in pages :: pages[p].data.Keys == PageKeys(pg, p)
    }

    predicate Dirty(p: nat) { p in pages && pages[p].dirty }
  }

  datatype Label =
    | Serve(page: nat, keys: set<nat>)
    | Apply(page: nat, img: Image)
    | LoadStart(id: nat, page: nat)
    | LoadPart(id: nat, keys: set<nat>)
    | LoadInsert(id: nat)
    | LoadDrop(id: nat)
    | Snapshot(id: nat, page: nat)
    | Land(id: nat, keys: set<nat>)
    | Finish(id: nat)
    | Fail(id: nat)
    | Evict(page: nat)

  /** What a client sees: a resident page from memory, any other page from the inner store. */
  function At(s: State, k: nat): Byte
    requires s.Shape() && k < |s.inner|
  {
    if s.pg[k] in s.pages then s.pages[s.pg[k]].data[k] else s.inner[k]
  }

  function View(s: State): (v: seq<Byte>)
    requires s.Shape()
    ensures |v| == |s.inner|
    ensures forall k | 0 <= k < |v| :: v[k] == At(s, k)
  {
    seq(|s.inner|, k requires 0 <= k < |s.inner| => At(s, k))
  }

  ghost predicate Enabled(s: State, l: Label) {
    && s.Shape()
    && match l
       case Serve(p, keys) => p in s.pages && keys <= PageKeys(s.pg, p)
       case Apply(p, img) => p in s.pages && img.Keys <= PageKeys(s.pg, p)
       case LoadStart(id, p) => id !in s.loads && p !in s.pages
       case LoadPart(id, keys) => id in s.loads && keys <= PageKeys(s.pg, s.loads[id].page)
       case LoadInsert(id) => id in s.loads && s.loads[id].img.Keys == PageKeys(s.pg, s.loads[id].page)
       case LoadDrop(id) => id in s.loads
       case Snapshot(id, p) => id !in s.flights && s.Dirty(p)
       case Land(id, keys) => id in s.flights && keys <= s.flights[id].img.Keys
       case Finish(id) => id in s.flights && s.flights[id].landed == s.flights[id].img.Keys
       case Fail(id) => id in s.flights
       case Evict(p) => p in s.pages && !s.pages[p].dirty
  }

  /** A write or a clear of part of a resident page. */
  function Applied(s: State, p: nat, img: Image): State
    requires p in s.pages
  {
    s.(pages := s.pages[p := Page(s.pages[p].data + img, true, s.counter + 1)], counter := s.counter + 1)
  }

  function LoadedPart(s: State, id: nat, keys: set<nat>): State
    requires id in s.loads
  {
    var w := s.loads[id];
    s.(loads := s.loads[id := w.(img := w.img + Cut(s.inner, keys))])
  }

  /** A page that became resident during the load is kept and the load is dropped. */
  function Inserted(s: State, id: nat): State
    requires id in s.loads
  {
    var w := s.loads[id];
    if w.page in s.pages then s.(loads := s.loads - {id})
    else s.(pages := s.pages[w.page := Page(w.img, false, s.counter + 1)], counter := s.counter + 1,
            loads := s.loads - {id})
  }

  function Snapshotted(s: State, id: nat, p: nat): State
    requires p in s.pages
  {
    s.(flights := s.flights[id := Flight(p, s.pages[p].seqNo, s.pages[p].data, {})])
  }

  function Landed(s: State, id: nat, keys: set<nat>): State
    requires id in s.flights
  {
    var f := s.flights[id];
    s.(inner := Overlay(s.inner, Restrict(f.img, keys)), flights := s.flights[id := f.(landed := f.landed + keys)])
  }

  /** The page is clean again only if nothing changed it since the snapshot. */
  function Finished(s: State, id: nat): State
    requires id in s.flights
  {
    var f := s.flights[id];
    s.(pages := if f.page in s.pages && s.pages[f.page].seqNo == f.seqNo
                then s.pages[f.page := s.pages[f.page].(dirty := false)] else s.pages,
       flights := s.flights - {id})
  }

  ghost function Next(s: State, l: Label): State
    requires Enabled(s, l)
  {
    match l
    case Serve(p, keys) => s
    case Apply(p, img) => Applied(s, p, img)
    case LoadStart(id, p) => s.(loads := s.loads[id := Load(p, map[])])
    case LoadPart(id, keys) => LoadedPart(s, id, keys)
    case LoadInsert(id) => Inserted(s, id)
    case LoadDrop(id) => s.(loads := s.loads - {id})
    case Snapshot(id, p) => Snapshotted(s, id, p)
    case Land(id, keys) => Landed(s, id, keys)
    case Finish(id) => Finished(s, id)
    case Fail(id) => s.(flights := s.flights - {id})
    case Evict(p) => s.(pages := s.pages - {p})
  }

  /** The bytes a `Serve` returns. */
  function Served(s: State, p: nat, keys: set<nat>): Image
    requires p in s.pages
  {
    Restrict(s.pages[p].data, keys)
  }

  // ----- Hypotheses -----

  /** `max_cached_pages` is 0. */
  predicate NoEviction(s: State, l: Label) { !l.Evict? }

  /** A flush of a page starts only when no other flush of that page is in flight. */
  ghost predicate NoOverlap(s: State, l: Label) {
    l.Snapshot? ==> forall id | id in s.flights :: s.flights[id].page != l.page
  }

  /** One client operation at a time: at most one load is on its way. */
  predicate Serial(s: State, l: Label) { l.LoadStart? ==> s.loads == map[] }
}
