/**
  The flat block device that every backend stands for, and `MemBackend`, the backend that is one.

  Reads, writes and clears work in chunks, at most one page each; `SpliceParts` is why the chunks add up.
*/
module Device {
  import opened Store

  datatype Result<T> = Ok(value: T) | Err

  /** `v` with `data` written at `o`. */
  function Splice(v: seq<Byte>, o: nat, data: seq<Byte>): (r: seq<Byte>)
    requires o + |data| <= |v|
    ensures |r| == |v|
    ensures forall k | 0 <= k < |v| :: r[k] == if o <= k < o + |data| then data[k - o] else v[k]
  {
    v[..o] + data + v[o + |data|..]
  }

  function Zeroed(n: nat): (r: seq<Byte>)
    ensures |r| == n && forall k | 0 <= k < n :: r[k] == 0
  {
    seq(n, k => 0)
  }

  /** Writing a prefix and then the next part is writing the longer prefix. */
  lemma SpliceParts(v: seq<Byte>, o: nat, data: seq<Byte>, i: nat, j: nat)
    requires i <= j <= |data| && o + |data| <= |v|
    ensures Splice(Splice(v, o, data[..i]), o + i, data[i..j]) == Splice(v, o, data[..j])
  {
  }

  /** Writing nothing changes nothing. */
  lemma SpliceNothing(v: seq<Byte>, o: nat)
    requires o <= |v|
    ensures Splice(v, o, []) == v
  {
  }

  /** `now` is `v` with some prefix of `data` written at `o`; nothing is written past the end. */
  ghost predicate Partly(v: seq<Byte>, now: seq<Byte>, o: nat, data: seq<Byte>) {
    if o + |data| > |v| then now == v
    else exists n :: 0 <= n <= |data| && now == Splice(v, o, data[..n])
  }

  lemma ZeroSlice(len: nat, i: nat, n: nat)
    requires i + n <= len
    ensures Zeroed(len)[i..i + n] == Zeroed(n)
  {
  }

  lemma PartlyUpTo(v: seq<Byte>, now: seq<Byte>, o: nat, data: seq<Byte>, n: nat)
    requires o + |data| <= |v| && n <= |data| && now == Splice(v, o, data[..n])
    ensures Partly(v, now, o, data)
  {
  }

  const SECTOR := 512

  predicate Aligned(n: nat) { n % SECTOR == 0 }

  /** A byte vector changed in place. */
  class MemBackend {
    var data: seq<Byte>

    /** A new device of zeros; the size is a non-zero multiple of the sector. */
    constructor (size: nat)
      requires Aligned(size) && size > 0
      ensures data == Zeroed(size)
    {
      data := Zeroed(size);
    }

    method Create(size: nat) returns (r: Result<()>)
      modifies this
      ensures r.Ok? <==> Aligned(size) && size > 0
      ensures data == if r.Ok? then Zeroed(size) else old(data)
    {
      if !Aligned(size) { return Err; }
      if size == 0 { return Err; }
      data := Zeroed(size);
      r := Ok(());
    }

    method Read(offset: nat, len: nat) returns (r: Result<seq<Byte>>)
      ensures r.Ok? <==> Aligned(offset) && Aligned(len) && offset + len <= |data|
      ensures r.Ok? ==> r.value == data[offset..offset + len]
    {
      if !Aligned(offset) { return Err; }
      if !Aligned(len) { return Err; }
      var end := offset + len;
      if end > |data| { return Err; }
      r := Ok(data[offset..end]);
    }

    method Write(offset: nat, payload: seq<Byte>) returns (r: Result<()>)
      modifies this
      ensures r.Ok? <==> Aligned(offset) && Aligned(|payload|) && offset + |payload| <= |old(data)|
      ensures data == if r.Ok? then Splice(old(data), offset, payload) else old(data)
    {
      if !Aligned(offset) { return Err; }
      if !Aligned(|payload|) { return Err; }
      var end := offset + |payload|;
      if end > |data| { return Err; }
      data := data[..offset] + payload + data[end..];
      r := Ok(());
    }

    method Clear(offset: nat, len: nat) returns (r: Result<()>)
      modifies this
      ensures r.Ok? <==> Aligned(offset) && Aligned(len) && offset + len <= |old(data)|
      ensures data == if r.Ok? then Splice(old(data), offset, Zeroed(len)) else old(data)
    {
      if !Aligned(offset) { return Err; }
      if !Aligned(len) { return Err; }
      var end := offset + len;
      if end > |data| { return Err; }
      data := data[..offset] + Zeroed(len) + data[end..];
      r := Ok(());
    }

    method Size() returns (n: nat)
      ensures n == |data|
    {
      n := |data|;
    }
  }

  /** What the block operations accept: nothing at all, or whole sectors within the device. */
  predicate Accepted(offset: nat, len: nat, size: nat) {
    len == 0 || (Aligned(offset) && Aligned(len) && offset + len <= size)
  }

  /**
    A remote store: a request may fail, and a failed write may still have taken effect.  `failures` counts them.  The
    store may buffer in turn: `flushed` is what it held when it was last flushed.
  */
  class Remote {
    var data: seq<Byte>
    ghost var flushed: seq<Byte>
    ghost var failures: nat

    constructor (content: seq<Byte>)
      ensures data == content && failures == 0
    {
      data := content;
      flushed := content;
      failures := 0;
    }

    /** Whether the store answers a request. */
    method Answers() returns (answered: bool)
      modifies this`failures
      ensures failures == old(failures) + if answered then 0 else 1
    {
      answered := *;
      if !answered { failures := failures + 1; }
    }

    method Size() returns (r: Result<nat>)
      modifies this`failures
      ensures failures == old(failures) + if r.Ok? then 0 else 1
      ensures r.Ok? ==> r.value == |data|
    {
      var answered := Answers();
      r := if answered then Ok(|data|) else Err;
    }

    method Read(offset: nat, len: nat) returns (r: Result<seq<Byte>>)
      requires offset + len <= |data|
      modifies this`failures
      ensures failures == old(failures) + if r.Ok? then 0 else 1
      ensures r.Ok? ==> r.value == data[offset..offset + len]
    {
      var answered := Answers();
      r := if answered then Ok(data[offset..offset + len]) else Err;
    }

    method Write(offset: nat, payload: seq<Byte>) returns (r: Result<()>)
      requires offset + |payload| <= |data|
      modifies this
      ensures failures == old(failures) + if r.Ok? then 0 else 1
      ensures flushed == old(flushed)
      ensures r.Ok? ==> data == Splice(old(data), offset, payload)
      ensures r.Err? ==> data == old(data) || data == Splice(old(data), offset, payload)
    {
      var answered := Answers();
      var reaches: bool := *;
      if answered || reaches {
        data := data[..offset] + payload + data[offset + |payload|..];
      }
      r := if answered then Ok(()) else Err;
    }

    method Clear(offset: nat, len: nat) returns (r: Result<()>)
      requires offset + len <= |data|
      modifies this
      ensures failures == old(failures) + if r.Ok? then 0 else 1
      ensures flushed == old(flushed)
      ensures r.Ok? ==> data == Splice(old(data), offset, Zeroed(len))
      ensures r.Err? ==> data == old(data) || data == Splice(old(data), offset, Zeroed(len))
    {
      r := Write(offset, Zeroed(len));
    }

    /** The store's own flush; no byte that is read from it changes. */
    method Sync() returns (r: Result<()>)
      modifies this`failures, this`flushed
      ensures failures == old(failures) + if r.Ok? then 0 else 1
      ensures flushed == if r.Ok? then data else old(flushed)
    {
      var answered := Answers();
      if answered { flushed := data; }
      r := if answered then Ok(()) else Err;
    }
  }
}
