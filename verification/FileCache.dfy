/**
  The local-disk page cache (`FileCacheBackend`) as a step machine.

  A client operation may also end in failure, between two chunks: a read then returns nothing, a write leaves the
  chunks it has finished.

  Each label is one lock-held section, or one step that runs without the lock (an upload reaching the blob, a
  byte range arriving from the blob).  Uploads and fetches move any set of bytes at a time, in any order, so
  torn and reordered transfers are included.  The hypotheses under which the cache refines a flat array are
  not built into the steps: they are the predicate `Disciplined`.
*/
module FileCache {
  import opened Common
  import opened Store

  /** An upload in flight: the page bytes and generation taken under the lock, and what reached the blob. */
  datatype Flight = Flight(page: nat, gen: nat, img: Image, landed: set<nat>)

  /** A page being fetched from the blob: bytes fetched so far, and which of them are in the data file. */
  datatype Fetch = Fetch(page: nat, img: Image, put: set<nat>)

  /**
    The client operation that holds the state lock.  A writer has finished the chunks `done` and has put
    `part` of its current chunk into the data file; `before` is the device content it started from.
  */
  datatype Client =
    | Idle
    | Reader(keys: set<nat>, got: Image)
    | Writer(img: Image, done: set<nat>, part: set<nat>, before: seq<Byte>)

  datatype State = State(
    pg: Paging,
    blob: seq<Byte>,
    data: seq<Byte>,
    present: set<nat>,
    dirty: set<nat>,
    gens: map<nat, nat>,
    flights: map<nat, Flight>,
    fetches: map<nat, Fetch>,
    client: Client)
  {
    function Gen(p: nat): nat { if p in gens then gens[p] else 0 }

    /** No chunk of a write is half done, so a lock section other than that chunk's can run. */
    predicate Calm() { client.Writer? ==> client.part == {} }

    predicate InPart(k: nat) { client.Writer? && k in client.part }

    ghost predicate Shape() { |data| == |blob| == |pg| }
  }

  datatype Label =
    | BeginRead(keys: set<nat>)
    | ReadPart(page: nat, keys: set<nat>)
    | EndRead
    | AbortRead
    | BeginWrite(img: Image)
    | PutData(page: nat, keys: set<nat>)
    | MarkDirty(page: nat)
    | EndWrite
    | AbortWrite
    | FetchStart(id: nat, page: nat)
    | FetchPart(id: nat, keys: set<nat>)
    | FetchPut(id: nat, keys: set<nat>)
    | FetchMark(id: nat)
    | FetchDrop(id: nat)
    | Snapshot(id: nat, page: nat)
    | Land(id: nat, keys: set<nat>)
    | Finish(id: nat)
    | Fail(id: nat)
    | Evict(page: nat)

  /** Steps of the cache that run without the state lock. */
  predicate Unlocked(l: Label) { l.Land? || l.FetchPart? || l.FetchDrop? || l.Fail? }

  /** What a reader of the device sees: a present page from the data file, any other page from the blob. */
  function At(s: State, k: nat): Byte
    requires s.Shape() && k < |s.blob|
  {
    if s.pg[k] in s.present then s.data[k] else s.blob[k]
  }

  function View(s: State): (v: seq<Byte>)
    requires s.Shape()
    ensures |v| == |s.blob|
    ensures forall k | 0 <= k < |v| :: v[k] == At(s, k)
  {
    seq(|s.blob|, k requires 0 <= k < |s.blob| => At(s, k))
  }

  /** The flat device content a client is promised: a write takes effect when it ends, or as far as it got. */
  function Flat(s: State): seq<Byte>
    requires s.Shape()
  {
    if s.client.Writer? then s.client.before else View(s)
  }

  /** One read chunk: a hit is served from the data file, a miss from the blob. */
  ghost function Served(s: State, p: nat, keys: set<nat>): Image {
    if p in s.present then Cut(s.data, keys) else Cut(s.blob, keys)
  }

  /** A chunk may be put when its page is present, or when the request covers the whole page. */
  ghost predicate CanPut(s: State, p: nat, keys: set<nat>) {
    && s.Shape()
    && s.client.Writer?
    && keys <= s.client.img.Keys - s.client.done
    && keys + s.client.part <= PageKeys(s.pg, p)
    && (p in s.present || PageKeys(s.pg, p) <= s.client.img.Keys)
  }

  ghost function Put(s: State, p: nat, keys: set<nat>): State
    requires CanPut(s, p, keys)
  {
    s.(data := Overlay(s.data, Restrict(s.client.img, keys)),
       client := s.client.(part := s.client.part + keys))
  }

  ghost predicate CanMark(s: State, p: nat) {
    && s.Shape()
    && s.client.Writer?
    && s.client.part != {}
    && s.client.part == s.client.img.Keys * PageKeys(s.pg, p)
  }

  ghost function Mark(s: State, p: nat): State
    requires CanMark(s, p)
  {
    s.(present := s.present + {p},
       dirty := s.dirty + {p},
       gens := s.gens[p := s.Gen(p) + 1],
       client := s.client.(done := s.client.done + s.client.part, part := {}))
  }

  ghost predicate CanFetchPart(s: State, id: nat, keys: set<nat>) {
    s.Shape() && id in s.fetches && keys <= PageKeys(s.pg, s.fetches[id].page)
  }

  ghost function FetchedPart(s: State, id: nat, keys: set<nat>): State
    requires CanFetchPart(s, id, keys)
  {
    var w := s.fetches[id];
    s.(fetches := s.fetches[id := w.(img := w.img + Cut(s.blob, keys))])
  }

  ghost predicate CanFetchPut(s: State, id: nat, keys: set<nat>) {
    && s.Shape()
    && s.Calm()
    && id in s.fetches
    && s.fetches[id].page !in s.present
    && s.fetches[id].img.Keys == PageKeys(s.pg, s.fetches[id].page)
    && keys <= s.fetches[id].img.Keys
  }

  ghost function FetchedPut(s: State, id: nat, keys: set<nat>): State
    requires CanFetchPut(s, id, keys)
  {
    var w := s.fetches[id];
    s.(data := Overlay(s.data, Restrict(w.img, keys)), fetches := s.fetches[id := w.(put := w.put + keys)])
  }

  ghost predicate CanFetchMark(s: State, id: nat) {
    && s.Shape()
    && s.Calm()
    && id in s.fetches
    && s.fetches[id].page !in s.present
    && s.fetches[id].put == PageKeys(s.pg, s.fetches[id].page)
  }

  ghost function FetchedMark(s: State, id: nat): State
    requires CanFetchMark(s, id)
  {
    s.(present := s.present + {s.fetches[id].page}, fetches := s.fetches - {id})
  }

  ghost predicate CanSnapshot(s: State, id: nat, p: nat) {
    s.Shape() && s.client.Idle? && id !in s.flights && p in s.dirty
  }

  ghost function Snapshotted(s: State, id: nat, p: nat): State
    requires CanSnapshot(s, id, p)
  {
    s.(flights := s.flights[id := Flight(p, s.Gen(p), Cut(s.data, PageKeys(s.pg, p)), {})])
  }

  ghost predicate CanLand(s: State, id: nat, keys: set<nat>) {
    s.Shape() && id in s.flights && keys <= s.flights[id].img.Keys
  }

  ghost function Landed(s: State, id: nat, keys: set<nat>): State
    requires CanLand(s, id, keys)
  {
    var f := s.flights[id];
    s.(blob := Overlay(s.blob, Restrict(f.img, keys)),
       flights := s.flights[id := f.(landed := f.landed + keys)])
  }

  ghost predicate CanFinish(s: State, id: nat) {
    && s.Shape()
    && s.client.Idle?
    && id in s.flights
    && s.flights[id].landed == s.flights[id].img.Keys
  }

  /** Whether the page of this flight is as it was when the flight was snapshotted, as far as `u64` can tell. */
  predicate SameGeneration(s: State, f: Flight) { s.Gen(f.page) % GENERATIONS == f.gen % GENERATIONS }

  ghost function Finished(s: State, id: nat): State
    requires CanFinish(s, id)
  {
    var f := s.flights[id];
    s.(dirty := if SameGeneration(s, f) then s.dirty - {f.page} else s.dirty, flights := s.flights - {id})
  }

  ghost predicate CanEvict(s: State, p: nat) {
    s.Shape() && s.Calm() && p in s.present && p !in s.dirty
  }

  /** Eviction punches a hole over the page, which then reads as zeros, and drops the present bit. */
  ghost function Evicted(s: State, p: nat): State
    requires CanEvict(s, p)
  {
    s.(present := s.present - {p}, data := Overlay(s.data, Zeros(PageKeys(s.pg, p))))
  }

  ghost predicate Enabled(s: State, l: Label) {
    && s.Shape()
    && match l
       case BeginRead(keys) => s.client.Idle? && forall k | k in keys :: k < |s.blob|
       case ReadPart(p, keys) => s.client.Reader? && keys <= s.client.keys && keys <= PageKeys(s.pg, p)
       case EndRead => s.client.Reader? && s.client.got.Keys == s.client.keys
       case AbortRead => s.client.Reader?
       case BeginWrite(img) => s.client.Idle? && forall k | k in img :: k < |s.blob|
       case PutData(p, keys) => CanPut(s, p, keys)
       case MarkDirty(p) => CanMark(s, p)
       case EndWrite => s.client.Writer? && s.client.done == s.client.img.Keys && s.client.part == {}
       case AbortWrite => s.client.Writer? && s.client.part == {}
       case FetchStart(id, p) => s.Calm() && id !in s.fetches && p in s.pg && p !in s.present
       case FetchPart(id, keys) => CanFetchPart(s, id, keys)
       case FetchPut(id, keys) => CanFetchPut(s, id, keys)
       case FetchMark(id) => CanFetchMark(s, id)
       case FetchDrop(id) => id in s.fetches
       case Snapshot(id, p) => CanSnapshot(s, id, p)
       case Land(id, keys) => CanLand(s, id, keys)
       case Finish(id) => CanFinish(s, id)
       case Fail(id) => id in s.flights
       case Evict(p) => CanEvict(s, p)
  }

  ghost function Next(s: State, l: Label): State
    requires Enabled(s, l)
  {
    match l
    case BeginRead(keys) => s.(client := Reader(keys, map[]))
    case ReadPart(p, keys) => s.(client := s.client.(got := s.client.got + Served(s, p, keys)))
    case EndRead => s.(client := Idle)
    case AbortRead => s.(client := Idle)
    case BeginWrite(img) => s.(client := Writer(img, {}, {}, View(s)))
    case PutData(p, keys) => Put(s, p, keys)
    case MarkDirty(p) => Mark(s, p)
    case EndWrite => s.(client := Idle)
    case AbortWrite => s.(client := Idle)
    case FetchStart(id, p) => s.(fetches := s.fetches[id := Fetch(p, map[], {})])
    case FetchPart(id, keys) => FetchedPart(s, id, keys)
    case FetchPut(id, keys) => FetchedPut(s, id, keys)
    case FetchMark(id) => FetchedMark(s, id)
    case FetchDrop(id) => s.(fetches := s.fetches - {id})
    case Snapshot(id, p) => Snapshotted(s, id, p)
    case Land(id, keys) => Landed(s, id, keys)
    case Finish(id) => Finished(s, id)
    case Fail(id) => s.(flights := s.flights - {id})
    case Evict(p) => Evicted(s, p)
  }

  // ----- Hypotheses -----

  /** A flush of a page starts only when no other flush of that page is in flight. */
  ghost predicate NoOverlap(s: State, l: Label) {
    l.Snapshot? ==> forall id | id in s.flights :: s.flights[id].page != l.page
  }

  /** A page is not evicted while an unlocked fetch of it is on its way. */
  ghost predicate NoStaleFetch(s: State, l: Label) {
    l.Evict? ==> forall id | id in s.fetches :: s.fetches[id].page != l.page
  }

  /** Fewer than 2^64 writes hit one page while one upload of it is in flight. */
  ghost predicate NoWrap(s: State, l: Label) {
    l.Finish? && l.id in s.flights ==> s.Gen(s.flights[l.id].page) < s.flights[l.id].gen + GENERATIONS
  }

  ghost predicate Disciplined(s: State, l: Label) {
    NoOverlap(s, l) && NoStaleFetch(s, l) && NoWrap(s, l)
  }
}
