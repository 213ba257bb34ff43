/**
  Byte stores and byte images.

  Every layer of the stack (blob, local data file, memory page) is a store addressed by absolute device
  offset.  An `Image` is a partial store: the bytes of one request, one page or one snapshot, also keyed by
  absolute offset.  Writing is `Overlay`, reading is `Cut`.
*/
module Store {

  type Byte = bv8

  type Image = map<nat, Byte>

  /** `base` with the bytes of `img` written over it; bytes beyond the end of `base` are ignored. */
  function Overlay(base: seq<Byte>, img: Image): (r: seq<Byte>)
    ensures |r| == |base|
    ensures forall k | 0 <= k < |base| :: r[k] == if k in img then img[k] else base[k]
  {
    seq(|base|, k requires 0 <= k < |base| => if k in img then img[k] else base[k])
  }

  /** The bytes of `base` at `keys`. */
  function Cut(base: seq<Byte>, keys: set<nat>): (img: Image)
    ensures forall k :: k in img <==> k in keys && k < |base|
    ensures forall k | k in img :: img[k] == base[k]
  {
    map k | k in keys && k < |base| :: base[k]
  }

  /** The part of `img` at `keys`. */
  function Restrict(img: Image, keys: set<nat>): (r: Image)
    ensures r.Keys == img.Keys * keys
    ensures forall k | k in r :: r[k] == img[k]
  {
    map k | k in img && k in keys :: img[k]
  }

  /**
    A paging assigns every byte of a device to a page.  The machines below are stated for any paging; the
    layers use `Uniform`.
  */
  type Paging = seq<nat>

  /** Fixed-size pages over a device of `n` bytes; the last page may be short. */
  function Uniform(n: nat, ps: nat): (pg: Paging)
    requires ps > 0
    ensures |pg| == n && forall k | 0 <= k < n :: pg[k] == k / ps
  {
    seq(n, k requires 0 <= k < n => k / ps)
  }

  /** The offsets of page `p`. */
  function PageKeys(pg: Paging, p: nat): (keys: set<nat>)
    ensures forall k: nat :: k in keys <==> k < |pg| && pg[k] == p
  {
    set k: nat | k < |pg| && pg[k] == p
  }

  /** An image that zero-fills `keys`. */
  function Zeros(keys: set<nat>): (img: Image)
    ensures img.Keys == keys
    ensures forall k | k in img :: img[k] == 0
  {
    map k | k in keys :: 0
  }

  // ----- Bytes as numbers -----

  function Bit(on: bool, m: Byte): Byte { if on then m else 0 }

  function FromBits(b7: bool, b6: bool, b5: bool, b4: bool, b3: bool, b2: bool, b1: bool, b0: bool): Byte {
    Bit(b7, 128) | Bit(b6, 64) | Bit(b5, 32) | Bit(b4, 16) | Bit(b3, 8) | Bit(b2, 4) | Bit(b1, 2) | Bit(b0, 1)
  }

  /** What is left of `x` below the binary digit of weight `w`. */
  function Less(x: nat, w: nat): nat { if x >= w then x - w else x }

  /** The byte of a number below 256. */
  function ToByte(x: nat): Byte
    requires x < 256
  {
    var x6 := Less(x, 128);
    var x5 := Less(x6, 64);
    var x4 := Less(x5, 32);
    var x3 := Less(x4, 16);
    var x2 := Less(x3, 8);
    var x1 := Less(x2, 4);
    var x0 := Less(x1, 2);
    FromBits(x >= 128, x6 >= 64, x5 >= 32, x4 >= 16, x3 >= 8, x2 >= 4, x1 >= 2, x0 >= 1)
  }

  function Weight(b: Byte, m: Byte, w: nat): nat { if b & m != 0 then w else 0 }

  /** The number of a byte. */
  function FromByte(b: Byte): nat {
    Weight(b, 128, 128) + Weight(b, 64, 64) + Weight(b, 32, 32) + Weight(b, 16, 16) +
    Weight(b, 8, 8) + Weight(b, 4, 4) + Weight(b, 2, 2) + Weight(b, 1, 1)
  }

  function Digit(on: bool, w: nat): nat { if on then w else 0 }

  lemma BitsWeigh(b7: bool, b6: bool, b5: bool, b4: bool, b3: bool, b2: bool, b1: bool, b0: bool)
    ensures FromByte(FromBits(b7, b6, b5, b4, b3, b2, b1, b0)) ==
            Digit(b7, 128) + Digit(b6, 64) + Digit(b5, 32) + Digit(b4, 16) +
            Digit(b3, 8) + Digit(b2, 4) + Digit(b1, 2) + Digit(b0, 1)
  {
  }

  /** One binary digit taken off. */
  lemma DigitOff(x: nat, w: nat)
    ensures Digit(x >= w, w) + Less(x, w) == x
    ensures x < 2 * w ==> Less(x, w) < w
  {
  }

  lemma ByteRoundTrip(x: nat)
    requires x < 256
    ensures FromByte(ToByte(x)) == x
  {
    hide FromBits, FromByte, Less, Digit;
    var x6 := Less(x, 128);
    var x5 := Less(x6, 64);
    var x4 := Less(x5, 32);
    var x3 := Less(x4, 16);
    var x2 := Less(x3, 8);
    var x1 := Less(x2, 4);
    var x0 := Less(x1, 2);
    BitsWeigh(x >= 128, x6 >= 64, x5 >= 32, x4 >= 16, x3 >= 8, x2 >= 4, x1 >= 2, x0 >= 1);
    DigitOff(x, 128);
    DigitOff(x6, 64);
    DigitOff(x5, 32);
    DigitOff(x4, 16);
    DigitOff(x3, 8);
    DigitOff(x2, 4);
    DigitOff(x1, 2);
    DigitOff(x0, 1);
  }
}
