/** Canonical serialisation (components/common/src/canonical_serialize.rs).
    The byte layout is what gets signed, so it is fixed exactly: an `Option`
    is a one-byte tag (0 absent, 1 present) followed by the value, a `Vec` is
    its element count as 8 big-endian bytes followed by the elements'
    serialisations in order, and a `u32` is 4 big-endian bytes.

    Rust's `CanonicalSerialize` trait is generic; here the values the three
    shown impls can serialise are collected in one datatype `Value`, and the
    element types of `Option<T>` and `Vec<T>` are described by a `Shape`. */
module CanonicalSerialize {
  import opened Wrappers
  import opened MachineInts

  datatype Value =
    | U32(n: u32)
    | Opt(opt: Option<Value>)
    | Vec(items: seq<Value>)

  /** The static type of a serialised value: `u32`, `Option<T>` or `Vec<T>`. */
  datatype Shape = U32Shape | OptShape(elem: Shape) | VecShape(elem: Shape)

  /** `usize_to_u64(len).unwrap()` panics on a longer vector: every vector
      inside a serialisable value has fewer than 2^64 elements. */
  predicate WellFormed(v: Value) {
    match v
    case U32(_) => true
    case Opt(None) => true
    case Opt(Some(t)) => WellFormed(t)
    case Vec(items) =>
      |items| < U64_LIMIT && forall i {:trigger WellFormed(items[i])} :: 0 <= i < |items| ==> WellFormed(items[i])
  }

  /** `v` is a value of the Rust type described by `s`. */
  predicate HasShape(v: Value, s: Shape) {
    match (v, s)
    case (U32(_), U32Shape) => true
    case (Opt(None), OptShape(_)) => true
    case (Opt(Some(t)), OptShape(e)) => HasShape(t, e)
    case (Vec(items), VecShape(e)) =>
      |items| < U64_LIMIT && forall i {:trigger HasShape(items[i], e)} :: 0 <= i < |items| ==> HasShape(items[i], e)
    case _ => false
  }

  // ---------------------------------------------------------------------
  // Big-endian fixed-width integers

  function Pow256(k: nat): (r: nat)
    ensures r > 0
  {
    if k == 0 then 1 else 256 * Pow256(k - 1)
  }

  /** The `width` bytes of `n`, most significant first. */
  function BigEndian(n: nat, width: nat): (r: seq<byte>)
    requires n < Pow256(width)
    ensures |r| == width
  {
    if width == 0 then [] else BigEndian(n / 256, width - 1) + [n % 256]
  }

  /** Reads bytes as an unsigned big-endian number. */
  function FromBigEndian(bs: seq<byte>): nat {
    if bs == [] then 0 else FromBigEndian(bs[..|bs| - 1]) * 256 + bs[|bs| - 1]
  }

  lemma {:induction false} FromBigEndianBound(bs: seq<byte>)
    ensures FromBigEndian(bs) < Pow256(|bs|)
  {
    if bs != [] {
      FromBigEndianBound(bs[..|bs| - 1]);
    }
  }

  /** Decoding the big-endian bytes of `n` gives back `n`. */
  lemma {:induction false} BigEndianRoundTrip(n: nat, width: nat)
    requires n < Pow256(width)
    ensures FromBigEndian(BigEndian(n, width)) == n
  {
    if width > 0 {
      var bs := BigEndian(n, width);
      assert bs[..|bs| - 1] == BigEndian(n / 256, width - 1);
      BigEndianRoundTrip(n / 256, width - 1);
    }
  }

  lemma Pow256Widths()
    ensures Pow256(4) == U32_LIMIT && Pow256(8) == U64_LIMIT
  {
    assert Pow256(2) == 0x1_0000;
    assert Pow256(4) == 0x1_0000 * 0x1_0000;
    assert Pow256(8) == Pow256(4) * Pow256(4) by {
      assert Pow256(8) == 0x1_0000 * 0x1_0000 * Pow256(4);
    }
  }

  lemma {:induction false} Pow256Add(a: nat, b: nat)
    ensures Pow256(a + b) == Pow256(a) * Pow256(b)
  {
    if b > 0 {
      Pow256Add(a, b - 1);
      assert Pow256(a + b) == 256 * Pow256(a + b - 1);
    }
  }

  /** The width of an i128 or u128. */
  lemma Pow256Width16()
    ensures Pow256(16) == U128_LIMIT
  {
    Pow256Widths();
    Pow256Add(8, 8);
  }

  /** The four bytes of a `u32`, unfolded. */
  lemma BigEndianU32(x: u32)
    ensures Pow256(4) == U32_LIMIT
    ensures BigEndian(x, 4) == [x / 0x100_0000, (x / 0x1_0000) % 256, (x / 0x100) % 256, x % 256]
  {
    Pow256Widths();
    assert Pow256(1) == 0x100 && Pow256(2) == 0x1_0000 && Pow256(3) == 0x100_0000;
    var x1 := x / 0x100;
    var x2 := x1 / 0x100;
    var x3 := x2 / 0x100;
    assert x2 == x / 0x1_0000;
    assert x3 == x / 0x100_0000;
    assert BigEndian(x3, 1) == BigEndian(x3 / 256, 0) + [x3 % 256];
    assert x3 % 256 == x3;
    assert BigEndian(x2, 2) == BigEndian(x3, 1) + [x2 % 256];
    assert BigEndian(x1, 3) == BigEndian(x2, 2) + [x1 % 256];
    assert BigEndian(x, 4) == BigEndian(x1, 3) + [x % 256];
  }

  /** `write_u32::<BigEndian>`: the four bytes of a `u32`, most significant first. */
  function U32Bytes(x: u32): (r: seq<byte>)
    ensures |r| == 4
  {
    [x / 0x100_0000, (x / 0x1_0000) % 256, (x / 0x100) % 256, x % 256]
  }

  /** `read_u32::<BigEndian>` on the first four bytes. */
  function ReadU32(b: seq<byte>): u32
    requires |b| >= 4
  {
    b[0] as int * 0x100_0000 + b[1] as int * 0x1_0000 + b[2] as int * 0x100 + b[3] as int
  }

  /** `write_u64::<BigEndian>`: the high half, then the low half. */
  function U64Bytes(n: u64): (r: seq<byte>)
    ensures |r| == 8
  {
    U32Bytes(n / U32_LIMIT) + U32Bytes(n % U32_LIMIT)
  }

  /** `read_u64::<BigEndian>` on the first eight bytes. */
  function ReadU64(b: seq<byte>): u64
    requires |b| >= 8
  {
    ReadU32(b[..4]) * U32_LIMIT + ReadU32(b[4..8])
  }

  /** Reading back the four bytes of `x`, whatever follows them, gives `x`. */
  lemma ReadU32Bytes(x: u32, rest: seq<byte>)
    ensures ReadU32(U32Bytes(x) + rest) == x
  {
    var b := U32Bytes(x) + rest;
    var x1 := x / 0x100;
    var x2 := x1 / 0x100;
    var x3 := x2 / 0x100;
    assert x2 == x / 0x1_0000 && x3 == x / 0x100_0000;
    assert b[0] == x3 && b[1] == x2 % 256 && b[2] == x1 % 256 && b[3] == x % 256;
    assert x == x1 * 256 + x % 256 && x1 == x2 * 256 + x1 % 256 && x2 == x3 * 256 + x2 % 256;
  }

  /** Reading back the eight bytes of `n`, whatever follows them, gives `n`. */
  lemma ReadU64Bytes(n: u64, rest: seq<byte>)
    ensures ReadU64(U64Bytes(n) + rest) == n
  {
    var b := U64Bytes(n) + rest;
    assert b[..4] == U32Bytes(n / U32_LIMIT) + [];
    assert b[4..8] == U32Bytes(n % U32_LIMIT) + [];
    ReadU32Bytes(n / U32_LIMIT, []);
    ReadU32Bytes(n % U32_LIMIT, []);
  }

  /** A big-endian byte string followed by another reads as the first shifted
      left by the second's width, plus the second. */
  lemma {:induction false} FromBigEndianConcat(a: seq<byte>, b: seq<byte>)
    ensures FromBigEndian(a + b) == FromBigEndian(a) * Pow256(|b|) + FromBigEndian(b)
  {
    if b == [] {
      assert a + b == a;
    } else {
      var b' := b[..|b| - 1];
      assert (a + b)[..|a + b| - 1] == a + b';
      FromBigEndianConcat(a, b');
      assert FromBigEndian(a) * Pow256(|b|) == (FromBigEndian(a) * Pow256(|b'|)) * 256;
    }
  }

  /** Two strings of the same width that read as the same number are equal. */
  lemma {:induction false} FromBigEndianInjective(a: seq<byte>, b: seq<byte>)
    requires |a| == |b| && FromBigEndian(a) == FromBigEndian(b)
    ensures a == b
  {
    if a != [] {
      var a', b' := a[..|a| - 1], b[..|b| - 1];
      var fa, fb := FromBigEndian(a'), FromBigEndian(b');
      assert fa * 256 + a[|a| - 1] == fb * 256 + b[|b| - 1];
      assert fa == fb && a[|a| - 1] == b[|b| - 1];
      FromBigEndianInjective(a', b');
      assert a == a' + [a[|a| - 1]] && b == b' + [b[|b| - 1]];
    }
  }

  /** The eight length bytes read back, big-endian, as the length. */
  lemma FromBigEndianU64Bytes(n: u64)
    ensures FromBigEndian(U64Bytes(n)) == n
  {
    var hi, lo := n / U32_LIMIT, n % U32_LIMIT;
    BigEndianU32(hi);
    BigEndianU32(lo);
    BigEndianRoundTrip(hi, 4);
    BigEndianRoundTrip(lo, 4);
    FromBigEndianConcat(U32Bytes(hi), U32Bytes(lo));
  }

  /** The eight-byte length prefix is the 8-byte big-endian form of the number. */
  lemma U64BytesBigEndian(n: u64)
    ensures Pow256(8) == U64_LIMIT
    ensures U64Bytes(n) == BigEndian(n, 8)
  {
    Pow256Widths();
    FromBigEndianU64Bytes(n);
    BigEndianRoundTrip(n, 8);
    FromBigEndianInjective(U64Bytes(n), BigEndian(n, 8));
  }

  // ---------------------------------------------------------------------
  // The canonical encoding

  /** The encodings of `items[k..]`, one after the other, in order. */
  function EncodeItems(items: seq<Value>, k: nat): seq<byte>
    requires forall i :: 0 <= i < |items| ==> WellFormed(items[i])
    requires k <= |items|
    decreases Vec(items), 0, |items| - k
  {
    if k == |items| then [] else Encoding(items[k]) + EncodeItems(items, k + 1)
  }

  /** The byte string `canonical_serialize` produces for `v`. */
  function Encoding(v: Value): seq<byte>
    requires WellFormed(v)
    decreases v, 1
  {
    match v
    case U32(n) => U32Bytes(n)
    case Opt(None) => [0]
    case Opt(Some(t)) => [1] + Encoding(t)
    case Vec(items) => U64Bytes(|items|) + EncodeItems(items, 0)
  }

  // ---------------------------------------------------------------------
  // The three impls, building a `res_data` buffer as the source does

  /** `impl CanonicalSerialize for u32`: `write_u32::<BigEndian>`. */
  method SerializeU32(x: u32) returns (res: seq<byte>)
    ensures |res| == 4
    ensures res == BigEndian(x, 4) && FromBigEndian(res) == x
    ensures res == Encoding(U32(x))
  {
    res := [];
    res := res + [x / 0x100_0000];
    res := res + [(x / 0x1_0000) % 256];
    res := res + [(x / 0x100) % 256];
    res := res + [x % 256];
    BigEndianU32(x);
    BigEndianRoundTrip(x, 4);
  }

  /** `impl CanonicalSerialize for Option<T>`. */
  method SerializeOption(o: Option<Value>) returns (res: seq<byte>)
    requires WellFormed(Opt(o))
    ensures o.None? ==> res == [0]
    ensures o.Some? ==> res == [1] + Encoding(o.value)
    ensures res == Encoding(Opt(o))
    decreases Opt(o), 0
  {
    res := [];
    match o
    case None =>
      res := res + [0];
    case Some(t) =>
      res := res + [1];
      var inner := Serialize(t);
      res := res + inner;
  }

  /** `impl CanonicalSerialize for Vec<T>`: the length, then every element. */
  method SerializeVec(items: seq<Value>) returns (res: seq<byte>)
    requires WellFormed(Vec(items))
    ensures |items| < U64_LIMIT
    ensures |res| == 8 + |EncodeItems(items, 0)|
    ensures res[..8] == BigEndian(|items|, 8) && FromBigEndian(res[..8]) == |items|
    ensures res[8..] == EncodeItems(items, 0)
    ensures res == Encoding(Vec(items))
    decreases Vec(items), 0
  {
    ghost var whole := U64Bytes(|items|) + EncodeItems(items, 0);
    res := [];
    res := res + U64Bytes(|items|);
    for i := 0 to |items|
      invariant res + EncodeItems(items, i) == whole
    {
      var e := Serialize(items[i]);
      assert (res + e) + EncodeItems(items, i + 1) == res + EncodeItems(items, i);
      res := res + e;
    }
    assert res == whole;
    U64BytesBigEndian(|items|);
    BigEndianRoundTrip(|items|, 8);
  }

  /** Dispatch on the value's type, as the trait does. */
  method Serialize(v: Value) returns (res: seq<byte>)
    requires WellFormed(v)
    ensures res == Encoding(v)
    decreases v, 1
  {
    match v
    case U32(n) => res := SerializeU32(n);
    case Opt(o) => res := SerializeOption(o);
    case Vec(items) => res := SerializeVec(items);
  }

  // ---------------------------------------------------------------------
  // Decoding: the partner that shows the layout loses nothing

  /** Parses a value of shape `s` from the front of `data`; gives the value and
      the number of bytes it used. */
  function Decode(s: Shape, data: seq<byte>): (r: Option<(Value, nat)>)
    ensures r.Some? ==> r.value.1 <= |data|
    decreases s, 0
  {
    match s
    case U32Shape =>
      if |data| < 4 then None else Some((U32(ReadU32(data)), 4))
    case OptShape(e) =>
      if |data| < 1 then None
      else if data[0] == 0 then Some((Opt(None), 1))
      else if data[0] == 1 then
        match Decode(e, data[1..])
        case None => None
        case Some((t, n)) => Some((Opt(Some(t)), n + 1))
      else None
    case VecShape(e) =>
      if |data| < 8 then None
      else
        match DecodeItems(e, ReadU64(data), data[8..])
        case None => None
        case Some((items, n)) => Some((Vec(items), n + 8))
  }

  function DecodeItems(e: Shape, count: nat, data: seq<byte>): (r: Option<(seq<Value>, nat)>)
    ensures r.Some? ==> r.value.1 <= |data| && |r.value.0| == count
    decreases e, 1, count
  {
    if count == 0 then Some(([], 0))
    else
      match Decode(e, data)
      case None => None
      case Some((x, n)) =>
        match DecodeItems(e, count - 1, data[n..])
        case None => None
        case Some((xs, m)) => Some(([x] + xs, n + m))
  }

  lemma {:induction false} HasShapeWellFormed(v: Value, s: Shape)
    requires HasShape(v, s)
    ensures WellFormed(v)
    decreases v
  {
    match (v, s)
    case (U32(_), U32Shape) =>
    case (Opt(None), OptShape(_)) =>
    case (Opt(Some(t)), OptShape(e)) => HasShapeWellFormed(t, e);
    case (Vec(items), VecShape(e)) =>
      forall i | 0 <= i < |items| ensures WellFormed(items[i]) {
        HasShapeWellFormed(items[i], e);
      }
  }

  /** Round trip: decoding the encoding of a value of shape `s`, whatever
      follows it, gives back the value and consumes exactly its encoding. */
  lemma {:induction false} DecodeEncoding(v: Value, s: Shape, rest: seq<byte>)
    requires HasShape(v, s)
    ensures WellFormed(v)
    ensures Decode(s, Encoding(v) + rest) == Some((v, |Encoding(v)|))
    decreases v, 2
  {
    HasShapeWellFormed(v, s);
    match v
    case U32(n) => DecodeEncodingU32(n, rest);
    case Opt(o) => DecodeEncodingOpt(v, s.elem, rest);
    case Vec(items) => DecodeEncodingVec(v, s.elem, rest);
  }

  lemma {:induction false} DecodeEncodingOpt(v: Value, e: Shape, rest: seq<byte>)
    requires v.Opt? && HasShape(v, OptShape(e))
    ensures WellFormed(v)
    ensures Decode(OptShape(e), Encoding(v) + rest) == Some((v, |Encoding(v)|))
    decreases v, 1
  {
    HasShapeWellFormed(v, OptShape(e));
    match v.opt
    case None =>
    case Some(t) =>
      var data := Encoding(v) + rest;
      assert data[1..] == Encoding(t) + rest;
      DecodeEncoding(t, e, rest);
  }

  lemma DecodeEncodingU32(n: u32, rest: seq<byte>)
    ensures Decode(U32Shape, Encoding(U32(n)) + rest) == Some((U32(n), 4))
  {
    ReadU32Bytes(n, rest);
  }

  lemma {:induction false} DecodeEncodingVec(v: Value, e: Shape, rest: seq<byte>)
    requires v.Vec? && HasShape(v, VecShape(e))
    ensures WellFormed(v)
    ensures Decode(VecShape(e), Encoding(v) + rest) == Some((v, |Encoding(v)|))
    decreases v, 1
  {
    HasShapeWellFormed(v, VecShape(e));
    var items := v.items;
    var data := Encoding(v) + rest;
    var body := EncodeItems(items, 0);
    assert data == U64Bytes(|items|) + (body + rest);
    ReadU64Bytes(|items|, body + rest);
    assert data[8..] == body + rest;
    forall i | 0 <= i < |items| ensures HasShape(items[i], e) && WellFormed(items[i]) {
      HasShapeWellFormed(items[i], e);
    }
    DecodeItemsEncoding(items, e, 0, rest);
  }

  lemma {:induction false} DecodeItemsEncoding(items: seq<Value>, e: Shape, k: nat, rest: seq<byte>)
    requires forall i {:trigger WellFormed(items[i])} :: 0 <= i < |items| ==> WellFormed(items[i])
    requires forall i {:trigger HasShape(items[i], e)} :: 0 <= i < |items| ==> HasShape(items[i], e)
    requires k <= |items|
    ensures DecodeItems(e, |items| - k, EncodeItems(items, k) + rest)
         == Some((items[k..], |EncodeItems(items, k)|))
    decreases Vec(items), 0, |items| - k
  {
    if k < |items| {
      var head := Encoding(items[k]);
      var tail := EncodeItems(items, k + 1);
      DecodeEncoding(items[k], e, tail + rest);
      DecodeItemsEncoding(items, e, k + 1, rest);
      EncodeItemsCons(items, k, rest);
      DecodeItemsCons(e, |items| - k, EncodeItems(items, k) + rest, head, tail + rest,
                      items[k], items[k + 1..], |tail|);
      SuffixCons(items, k);
    }
  }

  lemma EncodeItemsCons(items: seq<Value>, k: nat, rest: seq<byte>)
    requires forall i :: 0 <= i < |items| ==> WellFormed(items[i])
    requires k < |items|
    ensures EncodeItems(items, k) + rest == Encoding(items[k]) + (EncodeItems(items, k + 1) + rest)
    ensures |EncodeItems(items, k)| == |Encoding(items[k])| + |EncodeItems(items, k + 1)|
  {
  }

  lemma SuffixCons<T>(s: seq<T>, k: nat)
    requires k < |s|
    ensures s[k..] == [s[k]] + s[k + 1..]
  {
  }

  /** One step of the item decoding: an item decodes from the front of the
      data, and the remaining items from what follows it. */
  lemma DecodeItemsCons(e: Shape, count: nat, data: seq<byte>, head: seq<byte>,
                        tail: seq<byte>, x: Value, xs: seq<Value>, m: nat)
    requires count > 0 && data == head + tail
    requires Decode(e, head + tail) == Some((x, |head|))
    requires DecodeItems(e, count - 1, tail) == Some((xs, m))
    ensures DecodeItems(e, count, data) == Some(([x] + xs, |head| + m))
  {
    assert data[|head|..] == tail;
  }

}
