/**
 Bytes, little-endian words, UTF-16 text and lists: the vocabulary of the session file
 (src/session_store.rs, `write_*` and `read_*`).

 `PutX(v, rest)` is the byte string that starts with the image of `v` and goes on with `rest`.
 `GetX(b)` reads one value off the front of `b`. `Codec(put, get, ok)` says that the two are mutually
 inverse: what is put is got back and nothing else is touched, and whatever is got was put.
 */
module SessionBytes {

  type byte = x: int | 0 <= x < 0x100
  type u16 = x: int | 0 <= x < 0x1_0000
  type u32 = x: int | 0 <= x < 0x1_0000_0000
  type i32 = x: int | -0x8000_0000 <= x < 0x8000_0000
  type u64 = x: int | 0 <= x < 0x1_0000_0000_0000_0000

  type Bytes = seq<byte>
  type Units = seq<u16>   // an OS string: arbitrary 16-bit units

  // Every reader error is `InvalidData`; only its presence matters.
  datatype Parsed<+T> = Bad | Good(value: T, rest: Bytes) {
    predicate IsFailure() { Bad? }
    function PropagateFailure<U>(): Parsed<U> requires Bad? { Bad }
    function Extract(): (T, Bytes) requires Good? { (value, rest) }
  }

  ghost predicate Codec<T(!new)>(put: (T, Bytes) -> Bytes, get: Bytes -> Parsed<T>, ok: T -> bool)
  {
    && (forall v: T, rest: Bytes :: ok(v) ==> get(put(v, rest)) == Good(v, rest))
    && (forall b: Bytes :: get(b).Good? ==> ok(get(b).value) && b == put(get(b).value, get(b).rest))
  }

  // ---- little-endian words ----

  function Pow256(width: nat): nat
  {
    if width == 0 then 1 else 256 * Pow256(width - 1)
  }

  function ToLe(v: nat, width: nat): (r: Bytes)
    ensures |r| == width
    decreases v, width
  {
    if width == 0 then [] else [v % 256] + ToLe(v / 256, width - 1)
  }

  function FromLe(b: Bytes): nat
  {
    if b == [] then 0 else b[0] + 256 * FromLe(b[1..])
  }

  lemma {:induction false} FromToLe(v: nat, width: nat)
    requires v < Pow256(width)
    ensures FromLe(ToLe(v, width)) == v
    decreases width
  {
    if width != 0 {
      FromToLe(v / 256, width - 1);
      assert ToLe(v, width)[1..] == ToLe(v / 256, width - 1);
    }
  }

  lemma {:induction false} ToFromLe(b: Bytes)
    ensures FromLe(b) < Pow256(|b|)
    ensures ToLe(FromLe(b), |b|) == b
    decreases |b|
  {
    if b != [] {
      ToFromLe(b[1..]);
      assert FromLe(b) % 256 == b[0] && FromLe(b) / 256 == FromLe(b[1..]);
    }
  }

  function PutLe(v: nat, width: nat, rest: Bytes): Bytes
  {
    ToLe(v, width) + rest
  }

  /** `read_array` followed by `from_le_bytes`. */
  function GetLe(width: nat, b: Bytes): Parsed<nat>
  {
    if width <= |b| then Good(FromLe(b[..width]), b[width..]) else Bad
  }

  lemma LeRoundTrip(v: nat, width: nat, rest: Bytes)
    requires v < Pow256(width)
    ensures GetLe(width, PutLe(v, width, rest)) == Good(v, rest)
  {
    FromToLe(v, width);
    assert PutLe(v, width, rest)[..width] == ToLe(v, width);
    assert PutLe(v, width, rest)[width..] == rest;
  }

  lemma LeCanonical(width: nat, b: Bytes)
    requires GetLe(width, b).Good?
    ensures GetLe(width, b).value < Pow256(width)
    ensures b == PutLe(GetLe(width, b).value, width, GetLe(width, b).rest)
  {
    ToFromLe(b[..width]);
    assert b == b[..width] + b[width..];
  }

  function Four(b0: int, b1: int, b2: int, b3: int): int
  {
    b0 + 256 * (b1 + 256 * (b2 + 256 * b3))
  }

  function PutU8(v: byte, rest: Bytes): Bytes
  {
    [v] + rest
  }

  function GetU8(b: Bytes): Parsed<byte>
  {
    if b == [] then Bad else Good(b[0], b[1..])
  }

  function PutU16(v: u16, rest: Bytes): Bytes
  {
    PutLe(v, 2, rest)
  }

  function GetU16(b: Bytes): (r: Parsed<u16>)
  {
    if |b| < 2 then Bad else Good(b[0] as int + 256 * b[1] as int, b[2..])
  }

  function PutU32(v: u32, rest: Bytes): Bytes
  {
    PutLe(v, 4, rest)
  }

  function GetU32(b: Bytes): Parsed<u32>
  {
    if |b| < 4 then Bad else Good(Four(b[0], b[1], b[2], b[3]), b[4..])
  }

  function PutU64(v: u64, rest: Bytes): Bytes
  {
    PutLe(v, 8, rest)
  }

  function GetU64(b: Bytes): Parsed<u64>
  {
    if |b| < 8 then Bad
    else
      var low := Four(b[0], b[1], b[2], b[3]);
      var high := Four(b[4], b[5], b[6], b[7]);
      Good(low + 0x1_0000_0000 * high, b[8..])
  }

  /** Two's complement. */
  function PutI32(v: i32, rest: Bytes): Bytes
  {
    PutU32(if v < 0 then v + 0x1_0000_0000 else v, rest)
  }

  function GetI32(b: Bytes): Parsed<i32>
  {
    var (v, rest) :- GetU32(b);
    Good(if v < 0x8000_0000 then v else v - 0x1_0000_0000, rest)
  }

  function PutBool(v: bool, rest: Bytes): Bytes
  {
    PutU8(if v then 1 else 0, rest)
  }

  function GetBool(b: Bytes): Parsed<bool>
  {
    var (v, rest) :- GetU8(b);
    if v == 0 then Good(false, rest) else if v == 1 then Good(true, rest) else Bad
  }

  function Any<T>(v: T): bool { true }

  lemma U8Codec()
    ensures Codec(PutU8, GetU8, Any)
  {
  }

  lemma U16Codec()
    ensures Codec(PutU16, GetU16, Any)
  {
    assert Pow256(1) == 256 && Pow256(2) == 0x1_0000;
    forall v: u16, rest: Bytes ensures GetU16(PutU16(v, rest)) == Good(v, rest) {
      LeRoundTrip(v, 2, rest);
      GetU16IsLe(PutU16(v, rest));
    }
    forall b: Bytes | GetU16(b).Good? ensures b == PutU16(GetU16(b).value, GetU16(b).rest) {
      GetU16IsLe(b);
      LeCanonical(2, b);
    }
  }

  lemma GetU16IsLe(b: Bytes)
    ensures |b| < 2 ==> GetLe(2, b).Bad?
    ensures |b| >= 2 ==> GetLe(2, b) == Good(GetU16(b).value, b[2..])
  {
    if |b| >= 2 {
      var c := b[..2];
      assert c[1..][1..] == [];
      assert FromLe(c[1..]) == c[1] as int + 256 * FromLe(c[1..][1..]);
    }
  }

  lemma FourLe(c: Bytes)
    requires |c| == 4
    ensures FromLe(c) == Four(c[0], c[1], c[2], c[3])
  {
    assert c[1..][1..] == c[2..] && c[2..][1..] == c[3..] && c[3..][1..] == [];
    assert FromLe(c[3..]) == c[3] as int;
    assert FromLe(c[2..]) == c[2] as int + 256 * FromLe(c[3..]);
    assert FromLe(c[1..]) == c[1] as int + 256 * FromLe(c[2..]);
  }

  lemma GetU32IsLe(b: Bytes)
    ensures |b| < 4 ==> GetLe(4, b).Bad?
    ensures |b| >= 4 ==> GetLe(4, b) == Good(GetU32(b).value, b[4..])
  {
    if |b| >= 4 {
      FourLe(b[..4]);
    }
  }

  lemma Pow256s()
    ensures Pow256(4) == 0x1_0000_0000 && Pow256(8) == 0x1_0000_0000_0000_0000
  {
    assert Pow256(1) == 256 && Pow256(2) == 0x1_0000 && Pow256(3) == 0x100_0000;
    assert Pow256(5) == 256 * Pow256(4) && Pow256(6) == 256 * Pow256(5) && Pow256(7) == 256 * Pow256(6);
  }

  lemma U32Codec()
    ensures Codec(PutU32, GetU32, Any)
  {
    Pow256s();
    forall v: u32, rest: Bytes ensures GetU32(PutU32(v, rest)) == Good(v, rest) {
      LeRoundTrip(v, 4, rest);
      GetU32IsLe(PutU32(v, rest));
    }
    forall b: Bytes | GetU32(b).Good? ensures b == PutU32(GetU32(b).value, GetU32(b).rest) {
      GetU32IsLe(b);
      LeCanonical(4, b);
    }
  }

  lemma {:induction false} FromLeAppend(a: Bytes, b: Bytes)
    ensures FromLe(a + b) == FromLe(a) + Pow256(|a|) * FromLe(b)
    decreases |a|
  {
    if a == [] {
      assert a + b == b;
    } else {
      FromLeAppend(a[1..], b);
      assert (a + b)[1..] == a[1..] + b;
      assert 256 * (Pow256(|a| - 1) * FromLe(b)) == Pow256(|a|) * FromLe(b);
    }
  }

  lemma GetU64IsLe(b: Bytes)
    ensures |b| < 8 ==> GetLe(8, b).Bad?
    ensures |b| >= 8 ==> GetLe(8, b) == Good(GetU64(b).value, b[8..])
  {
    if |b| >= 8 {
      var low, high := b[..4], b[4..8];
      FourLe(low);
      FourLe(high);
      FromLeAppend(low, high);
      Pow256s();
      assert b[..8] == low + high;
    }
  }

  lemma U64Codec()
    ensures Codec(PutU64, GetU64, Any)
  {
    Pow256s();
    forall v: u64, rest: Bytes ensures GetU64(PutU64(v, rest)) == Good(v, rest) {
      LeRoundTrip(v, 8, rest);
      GetU64IsLe(PutU64(v, rest));
    }
    forall b: Bytes | GetU64(b).Good? ensures b == PutU64(GetU64(b).value, GetU64(b).rest) {
      GetU64IsLe(b);
      LeCanonical(8, b);
    }
  }

  lemma I32Codec()
    ensures Codec(PutI32, GetI32, Any)
  {
    U32Codec();
    forall v: i32, rest: Bytes ensures GetI32(PutI32(v, rest)) == Good(v, rest) {
      var w: u32 := if v < 0 then v + 0x1_0000_0000 else v;
      assert Any(w) && GetU32(PutU32(w, rest)) == Good(w, rest);
    }
    forall b: Bytes | GetI32(b).Good? ensures b == PutI32(GetI32(b).value, GetI32(b).rest) {
      assert GetU32(b).Good?;
    }
  }

  lemma BoolCodec()
    ensures Codec(PutBool, GetBool, Any)
  {
    U8Codec();
  }

  // ---- lists ----

  function PutAll<T>(put: (T, Bytes) -> Bytes, items: seq<T>, rest: Bytes): Bytes
  {
    if items == [] then rest else put(items[0], PutAll(put, items[1..], rest))
  }

  function GetAll<T>(get: Bytes -> Parsed<T>, count: nat, b: Bytes): (r: Parsed<seq<T>>)
    ensures r.Good? ==> |r.value| == count
  {
    if count == 0 then Good([], b)
    else
      var (first, b1) :- get(b);
      var (others, b2) :- GetAll(get, count - 1, b1);
      Good([first] + others, b2)
  }

  lemma {:induction false} AllRoundTrip<T(!new)>(put: (T, Bytes) -> Bytes, get: Bytes -> Parsed<T>, ok: T -> bool,
        items: seq<T>, rest: Bytes)
    requires Codec(put, get, ok) && forall i :: 0 <= i < |items| ==> ok(items[i])
    ensures GetAll(get, |items|, PutAll(put, items, rest)) == Good(items, rest)
    decreases |items|
  {
    if items != [] {
      AllRoundTrip(put, get, ok, items[1..], rest);
      assert items == [items[0]] + items[1..];
    }
  }

  lemma {:induction false} AllCanonical<T(!new)>(put: (T, Bytes) -> Bytes, get: Bytes -> Parsed<T>, ok: T -> bool,
        count: nat, b: Bytes)
    requires Codec(put, get, ok) && GetAll(get, count, b).Good?
    ensures b == PutAll(put, GetAll(get, count, b).value, GetAll(get, count, b).rest)
    ensures forall i :: 0 <= i < count ==> ok(GetAll(get, count, b).value[i])
    decreases count
  {
    if count != 0 {
      AllCanonical(put, get, ok, count - 1, get(b).rest);
      assert GetAll(get, count, b).value[1..] == GetAll(get, count - 1, get(b).rest).value;
    }
  }

  /** `as u32` keeps small numbers and wraps large ones. */
  function AsWord(n: nat): u32
  {
    if n < 0x1_0000_0000 then n else n % 0x1_0000_0000
  }

  /** A list with its length in front, `(len() as u32).to_le_bytes()`. */
  function PutCounted<T>(put: (T, Bytes) -> Bytes, items: seq<T>, rest: Bytes): Bytes
  {
    PutU32(AsWord(|items|), PutAll(put, items, rest))
  }

  function GetCounted<T>(get: Bytes -> Parsed<T>, max: nat, b: Bytes): Parsed<seq<T>>
  {
    var (count, b1) :- GetU32(b);
    if count > max then Bad else GetAll(get, count, b1)
  }

  predicate AllOk<T>(ok: T -> bool, max: nat, items: seq<T>)
  {
    |items| <= max && forall i :: 0 <= i < |items| ==> ok(items[i])
  }

  lemma CountedRoundTrip<T(!new)>(put: (T, Bytes) -> Bytes, get: Bytes -> Parsed<T>, ok: T -> bool, max: nat,
        items: seq<T>, rest: Bytes)
    requires Codec(put, get, ok) && max < 0x1_0000_0000 && AllOk(ok, max, items)
    ensures GetCounted(get, max, PutCounted(put, items, rest)) == Good(items, rest)
  {
    U32RoundTrip(AsWord(|items|), PutAll(put, items, rest));
    AllRoundTrip(put, get, ok, items, rest);
  }

  lemma CountedCanonical<T(!new)>(put: (T, Bytes) -> Bytes, get: Bytes -> Parsed<T>, ok: T -> bool, max: nat, b: Bytes)
    requires Codec(put, get, ok) && max < 0x1_0000_0000 && GetCounted(get, max, b).Good?
    ensures AllOk(ok, max, GetCounted(get, max, b).value)
    ensures b == PutCounted(put, GetCounted(get, max, b).value, GetCounted(get, max, b).rest)
  {
    U32Canonical(b);
    AllCanonical(put, get, ok, GetU32(b).value, GetU32(b).rest);
  }

  /** A list reader that has `done` items and still has `pending` ahead. */
  function Prepended<T>(done: seq<T>, pending: Parsed<seq<T>>): Parsed<seq<T>>
  {
    if pending.Bad? then Bad else Good(done + pending.value, pending.rest)
  }

  // ---- single uses of a codec ----

  lemma GetsPut<T(!new)>(put: (T, Bytes) -> Bytes, get: Bytes -> Parsed<T>, ok: T -> bool, v: T, rest: Bytes)
    requires Codec(put, get, ok) && ok(v)
    ensures get(put(v, rest)) == Good(v, rest)
  {
  }

  lemma PutsGot<T(!new)>(put: (T, Bytes) -> Bytes, get: Bytes -> Parsed<T>, ok: T -> bool, b: Bytes)
    requires Codec(put, get, ok) && get(b).Good?
    ensures ok(get(b).value) && b == put(get(b).value, get(b).rest)
  {
  }

  lemma U32RoundTrip(v: u32, rest: Bytes)
    ensures GetU32(PutU32(v, rest)) == Good(v, rest)
  {
    U32Codec();
    GetsPut(PutU32, GetU32, Any, v, rest);
  }

  lemma U32Canonical(b: Bytes)
    requires GetU32(b).Good?
    ensures b == PutU32(GetU32(b).value, GetU32(b).rest)
  {
    U32Codec();
    PutsGot(PutU32, GetU32, Any, b);
  }
}
