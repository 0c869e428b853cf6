/** The Borsh primitives the encoders are built from, and readers that undo them. */
module Borsh {
  import opened Types

  /** A reader takes a value off the front of the input and returns what is left. */
  type Read<+T> = Option<(T, Bytes)>

  function Pow256(width: nat): (r: nat)
    ensures r > 0
  {
    if width == 0 then 1 else 256 * Pow256(width - 1)
  }

  lemma Widths()
    ensures Pow256(4) == U32_LIMIT
    ensures Pow256(8) == U64_LIMIT
    ensures Pow256(16) == U128_LIMIT
  {
    assert Pow256(4) == 256 * 256 * 256 * 256;
    assert Pow256(8) == 256 * 256 * 256 * 256 * Pow256(4);
    assert Pow256(12) == 256 * 256 * 256 * 256 * Pow256(8);
    assert Pow256(16) == 256 * 256 * 256 * 256 * Pow256(12);
  }

  /** `to_le_bytes` of an unsigned integer of `width` bytes. */
  function LittleEndian(n: nat, width: nat): (b: Bytes)
    ensures |b| == width
  {
    if width == 0 then [] else [n % 256] + LittleEndian(n / 256, width - 1)
  }

  function LittleEndianValue(b: Bytes): nat {
    if b == [] then 0 else b[0] + 256 * LittleEndianValue(b[1..])
  }

  lemma {:induction false} LittleEndianRoundTrip(n: nat, width: nat)
    requires n < Pow256(width)
    ensures LittleEndianValue(LittleEndian(n, width)) == n
  {
    if width > 0 {
      LittleEndianRoundTrip(n / 256, width - 1);
      assert LittleEndian(n, width)[1..] == LittleEndian(n / 256, width - 1);
    }
  }

  lemma {:induction false} LittleEndianCanonical(b: Bytes)
    ensures LittleEndianValue(b) < Pow256(|b|)
    ensures LittleEndian(LittleEndianValue(b), |b|) == b
  {
    if b != [] {
      LittleEndianCanonical(b[1..]);
      assert LittleEndianValue(b) / 256 == LittleEndianValue(b[1..]);
      assert b == [b[0]] + b[1..];
    }
  }

  // ----- regrouping concatenations -----

  lemma Assoc(a: Bytes, b: Bytes, c: Bytes)
    ensures (a + b) + c == a + (b + c)
  {}

  lemma Nest3(a: Bytes, b: Bytes, c: Bytes, rest: Bytes)
    ensures a + b + c + rest == a + (b + (c + rest))
  {
    Assoc(a + b, c, rest);
    Assoc(a, b, c + rest);
  }

  lemma Nest4(a: Bytes, b: Bytes, c: Bytes, d: Bytes, rest: Bytes)
    ensures a + b + c + d + rest == a + (b + (c + (d + rest)))
  {
    Assoc(a + b + c, d, rest);
    Nest3(a, b, c, d + rest);
  }

  lemma Nest5(a: Bytes, b: Bytes, c: Bytes, d: Bytes, e: Bytes, rest: Bytes)
    ensures a + b + c + d + e + rest == a + (b + (c + (d + (e + rest))))
  {
    Assoc(a + b + c + d, e, rest);
    Nest4(a, b, c, d, e + rest);
  }

  lemma TagInFront(tag: byte, rest: Bytes)
    ensures [tag] + rest != [] && ([tag] + rest)[0] == tag && ([tag] + rest)[1..] == rest
  {}

  // ----- fixed-width integers -----

  function ReadUint(b: Bytes, width: nat): Read<nat> {
    if |b| < width then None else Some((LittleEndianValue(b[..width]), b[width..]))
  }

  lemma ReadUintForward(n: nat, width: nat, rest: Bytes)
    requires n < Pow256(width)
    ensures ReadUint(LittleEndian(n, width) + rest, width) == Some((n, rest))
  {
    var w := LittleEndian(n, width);
    assert (w + rest)[..width] == w && (w + rest)[width..] == rest;
    LittleEndianRoundTrip(n, width);
  }

  lemma ReadUintBackward(b: Bytes, width: nat)
    requires ReadUint(b, width).Some?
    ensures var (n, rest) := ReadUint(b, width).value;
      n < Pow256(width) && b == LittleEndian(n, width) + rest
  {
    LittleEndianCanonical(b[..width]);
    assert b == b[..width] + b[width..];
  }

  lemma Unwrapped(n: nat, limit: nat)
    requires n < limit
    ensures n % limit == n
  {}

  /** The same for a width whose bound is known. */
  lemma ReadBoundedBackward(b: Bytes, width: nat, limit: nat)
    requires limit == Pow256(width) && ReadUint(b, width).Some?
    ensures var (n, rest) := ReadUint(b, width).value;
      n < limit && b == LittleEndian(n, width) + rest
  {
    ReadUintBackward(b, width);
  }

  lemma ReadBoundedForward(n: nat, width: nat, limit: nat, rest: Bytes)
    requires n < limit == Pow256(width)
    ensures ReadUint(LittleEndian(n, width) + rest, width) == Some((n, rest))
  {
    ReadUintForward(n, width, rest);
  }

  function WriteU32(n: nat): Bytes { LittleEndian(n % U32_LIMIT, 4) }

  function WriteU64(n: nat): Bytes { LittleEndian(n % U64_LIMIT, 8) }

  function WriteU128(n: nat): Bytes { LittleEndian(n % U128_LIMIT, 16) }

  function ReadU32(b: Bytes): Read<nat> { ReadUint(b, 4) }

  function ReadU64(b: Bytes): Read<nat> { ReadUint(b, 8) }

  function ReadU128(b: Bytes): Read<nat> { ReadUint(b, 16) }

  lemma ReadU32Forward(n: nat, rest: Bytes)
    requires n < U32_LIMIT
    ensures ReadU32(WriteU32(n) + rest) == Some((n, rest))
  {
    Widths();
    ReadBoundedForward(n, 4, U32_LIMIT, rest);
  }

  lemma ReadU64Forward(n: nat, rest: Bytes)
    requires n < U64_LIMIT
    ensures ReadU64(WriteU64(n) + rest) == Some((n, rest))
  {
    Widths();
    ReadBoundedForward(n, 8, U64_LIMIT, rest);
  }

  lemma ReadU128Forward(n: nat, rest: Bytes)
    requires n < U128_LIMIT
    ensures ReadU128(WriteU128(n) + rest) == Some((n, rest))
  {
    Widths();
    ReadBoundedForward(n, 16, U128_LIMIT, rest);
  }

  lemma ReadU32Backward(b: Bytes)
    requires ReadU32(b).Some?
    ensures var (n, rest) := ReadU32(b).value; n < U32_LIMIT && b == WriteU32(n) + rest
  {
    Widths();
    ReadBoundedBackward(b, 4, U32_LIMIT);
    var (n, rest) := ReadU32(b).value;
    Unwrapped(n, U32_LIMIT);
    assert WriteU32(n) == LittleEndian(n, 4);
  }

  lemma ReadU64Backward(b: Bytes)
    requires ReadU64(b).Some?
    ensures var (n, rest) := ReadU64(b).value; n < U64_LIMIT && b == WriteU64(n) + rest
  {
    Widths();
    ReadBoundedBackward(b, 8, U64_LIMIT);
    var (n, rest) := ReadU64(b).value;
    Unwrapped(n, U64_LIMIT);
    assert WriteU64(n) == LittleEndian(n, 8);
  }

  lemma ReadU128Backward(b: Bytes)
    requires ReadU128(b).Some?
    ensures var (n, rest) := ReadU128(b).value; n < U128_LIMIT && b == WriteU128(n) + rest
  {
    Widths();
    ReadBoundedBackward(b, 16, U128_LIMIT);
    var (n, rest) := ReadU128(b).value;
    Unwrapped(n, U128_LIMIT);
    assert WriteU128(n) == LittleEndian(n, 16);
  }

  // ----- byte blocks of known length -----

  function ReadFixed(b: Bytes, width: nat): Read<Bytes> {
    if |b| < width then None else Some((b[..width], b[width..]))
  }

  lemma ReadFixedForward(s: Bytes, rest: Bytes)
    ensures ReadFixed(s + rest, |s|) == Some((s, rest))
  {
    assert (s + rest)[..|s|] == s && (s + rest)[|s|..] == rest;
  }

  lemma ReadFixedBackward(b: Bytes, width: nat)
    requires ReadFixed(b, width).Some?
    ensures var (s, rest) := ReadFixed(b, width).value;
      |s| == width && b == s + rest
  {
    assert b == b[..width] + b[width..];
  }

  // ----- length-prefixed strings and byte vectors -----

  /** The length is cast to `u32`, so a longer block would lose the high part. */
  function WriteBlob(s: Bytes): Bytes {
    WriteU32(|s|) + s
  }

  function ReadBlob(b: Bytes): Read<Bytes> {
    match ReadU32(b)
    case None => None
    case Some((n, rest)) => ReadFixed(rest, n)
  }

  lemma ReadBlobForward(s: Bytes, rest: Bytes)
    requires |s| < U32_LIMIT
    ensures ReadBlob(WriteBlob(s) + rest) == Some((s, rest))
  {
    Assoc(WriteU32(|s|), s, rest);
    ReadU32Forward(|s|, s + rest);
    ReadFixedForward(s, rest);
  }

  lemma ReadBlobBackward(b: Bytes)
    requires ReadBlob(b).Some?
    ensures var (s, rest) := ReadBlob(b).value;
      |s| < U32_LIMIT && b == WriteBlob(s) + rest
  {
    ReadU32Backward(b);
    var (n, tail) := ReadU32(b).value;
    ReadFixedBackward(tail, n);
    var (s, rest) := ReadFixed(tail, n).value;
    Assoc(WriteU32(n), s, rest);
  }

  // ----- public keys: a curve tag, then 32 or 64 bytes -----

  function WriteKey(k: PublicKey): Bytes {
    [if k.Ed25519? then 0 else 1] + k.raw
  }

  function ReadKey(b: Bytes): Read<PublicKey> {
    if b == [] || b[0] > 1 then None
    else
      match ReadFixed(b[1..], if b[0] == 0 then 32 else 64)
      case None => None
      case Some((raw, rest)) => Some((if b[0] == 0 then Ed25519(raw) else Secp256k1(raw), rest))
  }

  lemma ReadKeyForward(k: PublicKey, rest: Bytes)
    requires k.Valid()
    ensures ReadKey(WriteKey(k) + rest) == Some((k, rest))
  {
    assert (WriteKey(k) + rest)[1..] == k.raw + rest;
    ReadFixedForward(k.raw, rest);
  }

  lemma ReadKeyBackward(b: Bytes)
    requires ReadKey(b).Some?
    ensures var (k, rest) := ReadKey(b).value;
      k.Valid() && b == WriteKey(k) + rest
  {
    ReadFixedBackward(b[1..], if b[0] == 0 then 32 else 64);
    assert b == [b[0]] + b[1..];
  }

  // ----- items one after another -----

  function WriteMany<T>(write: T -> Bytes, items: seq<T>): Bytes {
    if items == [] then [] else write(items[0]) + WriteMany(write, items[1..])
  }

  function ReadMany<T>(read: Bytes -> Read<T>, count: nat, b: Bytes): Read<seq<T>> {
    if count == 0 then Some(([], b))
    else
      match read(b)
      case None => None
      case Some((x, b1)) =>
        match ReadMany(read, count - 1, b1)
        case None => None
        case Some((tail, rest)) => Some(([x] + tail, rest))
  }

  lemma {:induction false} WriteManySnoc<T>(write: T -> Bytes, items: seq<T>, x: T)
    ensures WriteMany(write, items + [x]) == WriteMany(write, items) + write(x)
  {
    if items == [] {
      assert WriteMany(write, [x]) == write(x) + WriteMany(write, []);
    } else {
      assert (items + [x])[1..] == items[1..] + [x];
      WriteManySnoc(write, items[1..], x);
    }
  }

  lemma WriteManyCons<T>(write: T -> Bytes, x: T, tail: seq<T>, rest: Bytes)
    ensures WriteMany(write, [x] + tail) + rest == write(x) + (WriteMany(write, tail) + rest)
  {
    assert ([x] + tail)[1..] == tail;
    Assoc(write(x), WriteMany(write, tail), rest);
  }

  /** If one item comes back, so does a list of them. */
  lemma {:induction false} ReadManyForward<T>(read: Bytes -> Read<T>, write: T -> Bytes, valid: T -> bool, items: seq<T>, rest: Bytes)
    requires forall x, more :: valid(x) ==> read(write(x) + more) == Some((x, more))
    requires forall i :: 0 <= i < |items| ==> valid(items[i])
    ensures ReadMany(read, |items|, WriteMany(write, items) + rest) == Some((items, rest))
  {
    if items == [] {
      assert WriteMany(write, items) + rest == rest;
    } else {
      var x, tail := items[0], items[1..];
      assert items == [x] + tail;
      WriteManyCons(write, x, tail, rest);
      ReadManyForward(read, write, valid, tail, rest);
    }
  }

  /** If the item reader accepts only encodings, so does the list reader. */
  lemma {:induction false} ReadManyBackward<T>(read: Bytes -> Read<T>, write: T -> Bytes, valid: T -> bool, count: nat, b: Bytes)
    requires forall c :: read(c).Some? ==> valid(read(c).value.0) && c == write(read(c).value.0) + read(c).value.1
    requires ReadMany(read, count, b).Some?
    ensures var (items, rest) := ReadMany(read, count, b).value;
      |items| == count && (forall i :: 0 <= i < |items| ==> valid(items[i])) && b == WriteMany(write, items) + rest
  {
    if count > 0 {
      var (x, b1) := read(b).value;
      ReadManyBackward(read, write, valid, count - 1, b1);
      var (tail, rest) := ReadMany(read, count - 1, b1).value;
      WriteManyCons(write, x, tail, rest);
    }
  }
}
