/**
  The metadata file of the local-disk cache: a 64-byte header followed by the `present` and `dirty` bitmaps,
  eight pages to a byte.
*/
module Metadata {
  import opened Common
  import opened Store
  import CacheDisk

  // ----- Bitmaps -----

  type Bitmap = seq<Byte>

  function BitmapBytes(numPages: nat): nat { (numPages + 7) / 8 }

  /** `1 << bit`. */
  function Mask(bit: nat): Byte
    requires bit < 8
  {
    [1, 2, 4, 8, 16, 32, 64, 128][bit]
  }

  /** A page beyond the bitmap reads as clear. */
  predicate BitGet(bitmap: Bitmap, idx: nat) {
    idx / 8 < |bitmap| && bitmap[idx / 8] & Mask(idx % 8) != 0
  }

  function BitSet(bitmap: Bitmap, idx: nat, value: bool): (r: Bitmap)
    requires idx / 8 < |bitmap|
    ensures |r| == |bitmap|
  {
    var b := bitmap[idx / 8];
    bitmap[idx / 8 := if value then b | Mask(idx % 8) else b & !Mask(idx % 8)]
  }

  /** Setting one bit changes that bit and no other, not even in the same byte. */
  lemma BitSetGet(bitmap: Bitmap, idx: nat, value: bool, other: nat)
    requires idx / 8 < |bitmap|
    ensures BitGet(BitSet(bitmap, idx, value), other) == if other == idx then value else BitGet(bitmap, other)
  {
  }

  /** The pages whose bit is set. */
  function Pages(bitmap: Bitmap): (r: set<nat>)
    ensures forall q: nat :: q in r <==> BitGet(bitmap, q)
  {
    set q: nat | q < 8 * |bitmap| && BitGet(bitmap, q)
  }

  lemma BitSetPages(bitmap: Bitmap, idx: nat, value: bool)
    requires idx / 8 < |bitmap|
    ensures Pages(BitSet(bitmap, idx, value)) == if value then Pages(bitmap) + {idx} else Pages(bitmap) - {idx}
  {
    forall q: nat ensures q in Pages(BitSet(bitmap, idx, value)) <==>
                          q in if value then Pages(bitmap) + {idx} else Pages(bitmap) - {idx} {
      BitSetGet(bitmap, idx, value, q);
    }
  }

  /** Writing one byte of a bitmap to disk takes the bits of its eight pages and leaves every other page's. */
  lemma ByteWritePages(file: Bitmap, memory: Bitmap, b: nat)
    requires b < |file| == |memory|
    ensures Pages(file[b := memory[b]]) == CacheDisk.ByteOf(Pages(file), Pages(memory), b)
  {
  }

  // ----- Little-endian integers -----

  function ToLE(v: nat, len: nat): (r: seq<Byte>)
    ensures |r| == len
  {
    if len == 0 then [] else [ToByte(v % 256)] + ToLE(v / 256, len - 1)
  }

  function FromLE(s: seq<Byte>): nat {
    if s == [] then 0 else FromByte(s[0]) + 256 * FromLE(s[1..])
  }

  lemma FromLECons(x: nat, rest: seq<Byte>)
    requires x < 256
    ensures FromLE([ToByte(x)] + rest) == x + 256 * FromLE(rest)
  {
    ByteRoundTrip(x);
    assert ([ToByte(x)] + rest)[1..] == rest;
  }

  lemma {:induction false} LERoundTrip(v: nat, len: nat)
    requires v < Pow256(len)
    ensures FromLE(ToLE(v, len)) == v
  {
    if len > 0 {
      LERoundTrip(v / 256, len - 1);
      FromLECons(v % 256, ToLE(v / 256, len - 1));
    }
  }

  // ----- The file -----

  const MAGIC: seq<Byte> := [0x55, 0x42, 0x4c, 0x4b, 0x46, 0x43, 0x41, 0x43]
  const VERSION: nat := 1
  const HEADER_SIZE: nat := 64

  function Zero(n: nat): (r: seq<Byte>)
    ensures |r| == n
  {
    seq(n, _ => 0)
  }

  function Header(pageSize: nat, devSize: nat, numPages: nat): (h: seq<Byte>)
    ensures |h| == HEADER_SIZE
  {
    MAGIC + ToLE(VERSION, 4) + Zero(4) + ToLE(pageSize, 8) + ToLE(devSize, 8) + ToLE(numPages, 8) + Zero(24)
  }

  function MetaBytes(pageSize: nat, devSize: nat, numPages: nat, present: Bitmap, dirty: Bitmap): seq<Byte> {
    Header(pageSize, devSize, numPages) + present + dirty
  }

  /** The bitmaps in a metadata file, if it is long enough and its header matches. */
  function Decode(file: seq<Byte>, pageSize: nat, devSize: nat, numPages: nat): Option<(Bitmap, Bitmap)> {
    var len := BitmapBytes(numPages);
    if |file| < HEADER_SIZE + 2 * len then None
    else if file[0..8] != MAGIC then None
    else if FromLE(file[8..12]) != VERSION || FromLE(file[16..24]) != pageSize || FromLE(file[24..32]) != devSize then None
    else Some((file[HEADER_SIZE..HEADER_SIZE + len], file[HEADER_SIZE + len..HEADER_SIZE + 2 * len]))
  }

  predicate IsU64(v: nat) { v < 0x1_0000_0000_0000_0000 }

  lemma HeaderFields(pageSize: nat, devSize: nat, numPages: nat)
    requires IsU64(pageSize) && IsU64(devSize)
    ensures var h := Header(pageSize, devSize, numPages);
      && h[0..8] == MAGIC && FromLE(h[8..12]) == VERSION
      && FromLE(h[16..24]) == pageSize && FromLE(h[24..32]) == devSize
  {
    Pow256Facts();
    LERoundTrip(VERSION, 4);
    LERoundTrip(pageSize, 8);
    LERoundTrip(devSize, 8);
    HeaderSlices(MAGIC, ToLE(VERSION, 4), Zero(4), ToLE(pageSize, 8), ToLE(devSize, 8), ToLE(numPages, 8) + Zero(24));
    assert Header(pageSize, devSize, numPages) ==
           MAGIC + ToLE(VERSION, 4) + Zero(4) + ToLE(pageSize, 8) + ToLE(devSize, 8) + (ToLE(numPages, 8) + Zero(24));
  }

  lemma HeaderSlices(magic: seq<Byte>, version: seq<Byte>, gap: seq<Byte>, ps: seq<Byte>, dev: seq<Byte>, rest: seq<Byte>)
    requires |magic| == |ps| == |dev| == 8 && |version| == |gap| == 4
    ensures var h := magic + version + gap + ps + dev + rest;
      h[0..8] == magic && h[8..12] == version && h[16..24] == ps && h[24..32] == dev
  {
  }

  /** A file written for one geometry is read back exactly by the same geometry, and rejected by any other. */
  lemma MetaRoundTrip(ps: nat, dev: nat, num: nat, present: Bitmap, dirty: Bitmap, ps': nat, dev': nat, num': nat)
    requires IsU64(ps) && IsU64(dev)
    requires |present| == |dirty| == BitmapBytes(num)
    requires ps == ps' && dev == dev' ==> num == num'
    ensures Decode(MetaBytes(ps, dev, num, present, dirty), ps', dev', num') ==
            if ps == ps' && dev == dev' then Some((present, dirty)) else None
  {
    hide ToLE, FromLE, Pow256, Header;
    HeaderFields(ps, dev, num);
    var f, h := MetaBytes(ps, dev, num, present, dirty), Header(ps, dev, num);
    assert f[0..8] == h[0..8] && f[8..12] == h[8..12] && f[16..24] == h[16..24] && f[24..32] == h[24..32];
    var len := BitmapBytes(num);
    assert f[HEADER_SIZE..HEADER_SIZE + len] == present && f[HEADER_SIZE + len..HEADER_SIZE + 2 * len] == dirty;
  }

  /** Persisting one page's bits reaches exactly the two bytes that hold them. */
  lemma PersistedBitsDecode(file: seq<Byte>, ps: nat, dev: nat, num: nat, present: Bitmap, dirty: Bitmap, page: nat)
    requires Decode(file, ps, dev, num).Some?
    requires |present| == |dirty| == BitmapBytes(num) && page < num
    ensures |file| > HEADER_SIZE + BitmapBytes(num) + page / 8
    ensures var Some((p, d)) := Decode(file, ps, dev, num);
      Decode(Persisted(file, num, present, dirty, page), ps, dev, num) ==
      Some((p[page / 8 := present[page / 8]], d[page / 8 := dirty[page / 8]]))
  {
  }

  /** The file after `persist_meta_bit`: the page's byte of each bitmap, from memory. */
  function Persisted(file: seq<Byte>, num: nat, present: Bitmap, dirty: Bitmap, page: nat): seq<Byte>
    requires |present| == |dirty| == BitmapBytes(num) && page < num
    requires |file| >= HEADER_SIZE + 2 * BitmapBytes(num)
  {
    file[HEADER_SIZE + page / 8 := present[page / 8]][HEADER_SIZE + BitmapBytes(num) + page / 8 := dirty[page / 8]]
  }
}
