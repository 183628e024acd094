/** Array parameters and results: the recursive encoder of fbird_query_array.c, the recursive decoder of
    fbird_result.c and the sizes of fbird_query_bind.c, over one flat buffer. */
module ArrayCodec {
  import opened State
  import opened Arithmetic

  // ------------------------------------------------------------ values and descriptors

  /** A PHP value, as far as the codec looks at it; keys are ignored on the way in. */
  datatype Value = Null | Int(n: int) | Str(s: seq<Byte>) | Arr(elems: seq<Value>)

  /** What the decoder builds: an array has the keys lo, lo + 1, ... in order. */
  datatype Out = OInt(n: int) | OStr(s: seq<Byte>) | OArr(lo: int, elems: seq<Out>)

  type Int64 = n: int | -0x8000_0000_0000_0000 <= n < 0x8000_0000_0000_0000

  /** zval_get_long and zval_get_string of the PHP runtime. */
  datatype Runtime = Runtime(toLong: Value -> Int64, toStr: Value -> seq<Byte>)

  /** The element types with an exact encoding at scale 0. `length` is array_desc_length. */
  datatype Elem = Short | Long | BigInt | Varying(length: nat) | Text(length: nat)

  type Bounds = b: (int, int) | b.0 <= b.1 witness (0, 0)

  datatype Desc = Desc(elem: Elem, bounds: seq<Bounds>) {
    predicate Valid() {
      match elem
      case Varying(length) => length < 0xFFFF
      case Text(length) => 0 < length <= 0xFFFF
      case _ => true
    }

    function ElSize(): (r: nat)
      ensures Valid() ==> 0 < r <= 0xFFFF
    {
      match elem
      case Short => 2
      case Long => 4
      case BigInt => 8
      case Varying(length) => length + 1
      case Text(length) => length
    }

    function Len(dim: nat): (r: nat)
      requires dim < |bounds|
      ensures r > 0
    {
      1 + bounds[dim].1 - bounds[dim].0
    }

    /** The bytes of one slice at depth `dim`. */
    function Size(dim: nat): nat
      requires dim <= |bounds|
      decreases |bounds| - dim
    {
      if dim == |bounds| then ElSize() else Len(dim) * Size(dim + 1)
    }
  }

  // ------------------------------------------------------------ sizes

  /** The size of the whole slice as fbird_query_bind.c computes it. */
  method SliceLength(d: Desc) returns (size: nat)
    ensures size == d.Size(0)
  {
    var elements: nat := 1;
    var i := 0;
    DescProduct(d, 0);
    while i < |d.bounds|
      invariant i <= |d.bounds| && elements * Product(d, i) == Product(d, 0)
    {
      ProductStep(elements, d.Len(i), Product(d, i + 1));
      elements := elements * d.Len(i);
      i := i + 1;
    }
    size := d.ElSize() * elements;
  }

  /** The number of leaves below depth `dim`. */
  function Product(d: Desc, dim: nat): nat
    requires dim <= |d.bounds|
    decreases |d.bounds| - dim
  {
    if dim == |d.bounds| then 1 else d.Len(dim) * Product(d, dim + 1)
  }

  lemma ProductStep(a: nat, b: nat, c: nat)
    ensures a * (b * c) == (a * b) * c
  {}

  lemma {:induction false} DescProduct(d: Desc, dim: nat)
    requires dim <= |d.bounds|
    ensures d.Size(dim) == d.ElSize() * Product(d, dim)
    decreases |d.bounds| - dim
  {
    if dim < |d.bounds| {
      DescProduct(d, dim + 1);
      ProductStep(d.ElSize(), d.Len(dim), Product(d, dim + 1));
      ProductStep(d.Len(dim), d.ElSize(), Product(d, dim + 1));
      assert d.ElSize() * d.Len(dim) == d.Len(dim) * d.ElSize();
    }
  }

  /** The division that both recursions make is exact at every depth. */
  lemma DivisionIsExact(d: Desc, dim: nat)
    requires dim < |d.bounds|
    ensures d.Size(dim) / d.Len(dim) == d.Size(dim + 1)
    ensures d.Size(dim) % d.Len(dim) == 0
  {
    var (n, s) := (d.Len(dim), d.Size(dim + 1));
    assert n * s == s * n;
    Divides(s, n);
  }

  // ------------------------------------------------------------ integers in memory

  function Pow256(k: nat): (r: nat)
    ensures r > 0
  {
    if k == 0 then 1 else 256 * Pow256(k - 1)
  }

  /** The k low-order bytes of a two's-complement integer, lowest first. */
  function ToBytes(n: int, k: nat): (r: seq<Byte>)
    ensures |r| == k
    decreases k
  {
    if k == 0 then [] else [n % 256] + ToBytes(n / 256, k - 1)
  }

  /** The two's-complement integer in such bytes. */
  function FromBytes(s: seq<Byte>): int
    requires |s| > 0
  {
    if |s| == 1 then (if s[0] < 128 then s[0] else s[0] - 256) else s[0] + 256 * FromBytes(s[1..])
  }

  lemma HighBytes(n: int, p: nat)
    requires 0 <= 2 * n + 256 * p < 512 * p && p % 2 == 0
    ensures 0 <= 2 * (n / 256) + p < 2 * p && n == n % 256 + 256 * (n / 256)
  {}

  lemma {:induction false} IntRoundTrip(n: int, k: nat)
    requires k > 0 && 0 <= 2 * n + Pow256(k) < 2 * Pow256(k)
    ensures FromBytes(ToBytes(n, k)) == n
    decreases k
  {
    if k > 1 {
      assert Pow256(k - 1) == 256 * Pow256(k - 2);
      HighBytes(n, Pow256(k - 1));
      IntRoundTrip(n / 256, k - 1);
      assert ToBytes(n, k)[1..] == ToBytes(n / 256, k - 1);
      hide Pow256;
    } else {
      assert Pow256(1) == 256 * Pow256(0);
      assert ToBytes(n, 1)[0] == n % 256;
    }
  }

  // ------------------------------------------------------------ strings in memory

  /** strnlen */
  function StrLen(s: seq<Byte>): (n: nat)
    ensures n <= |s| && (n < |s| ==> s[n] == 0) && forall i :: 0 <= i < n ==> s[i] != 0
  {
    if s == [] || s[0] == 0 then 0 else 1 + StrLen(s[1..])
  }

  function Rtrim(s: seq<Byte>): (r: seq<Byte>)
    ensures r <= s && (r != [] ==> r[|r| - 1] != 32) && forall i :: |r| <= i < |s| ==> s[i] == 32
  {
    if s != [] && s[|s| - 1] == 32 then Rtrim(s[..|s| - 1]) else s
  }

  function Fill(b: Byte, n: nat): (r: seq<Byte>)
    ensures |r| == n && forall i :: 0 <= i < n ==> r[i] == b
  {
    if n == 0 then [] else [b] + Fill(b, n - 1)
  }

  /** What fits into a field of `n` bytes, the last of which is never used for data. */
  function Clip(s: seq<Byte>, n: nat): seq<Byte>
    requires n > 0
  {
    if |s| >= n then s[..n - 1] else s
  }

  // ------------------------------------------------------------ leaves

  /** The bytes one element leaves in its slot, which held `was`; None is a value out of range. */
  function EncodeLeaf(rt: Runtime, d: Desc, v: Value, was: seq<Byte>): (r: Option<seq<Byte>>)
    requires d.Valid() && |was| == d.ElSize()
    ensures r.Some? ==> |r.value| == |was|
  {
    if v.Null? then Some(Fill(0, |was|))
    else
      match d.elem
      case Short => if -0x8000 <= rt.toLong(v) < 0x8000 then Some(ToBytes(rt.toLong(v), 2)) else None
      case Long => if -0x8000_0000 <= rt.toLong(v) < 0x8000_0000 then Some(ToBytes(rt.toLong(v), 4)) else None
      case BigInt => Some(ToBytes(rt.toLong(v), 8))
      case Varying(_) => var t := Clip(rt.toStr(v), |was|); Some(t + [0] + was[|t| + 1..])
      case Text(_) => var t := Clip(rt.toStr(v), |was|); Some(t + Fill(32, |was| - |t|))
  }

  function DecodeLeaf(d: Desc, data: seq<Byte>): Out
    requires d.Valid() && |data| == d.ElSize()
  {
    match d.elem
    case Varying(_) => OStr(data[..StrLen(data[..|data| - 1])])
    case Text(_) => OStr(if StrLen(data) == |data| then Rtrim(data) else data[..StrLen(data)])
    case _ => OInt(FromBytes(data))
  }

  /** The value that comes back for one element: integers as converted, strings up to the first NUL and the
      declared length; a CHAR also loses its last byte when it is full, and its trailing spaces. */
  function NormLeaf(rt: Runtime, d: Desc, v: Value): Out
    requires d.Valid()
  {
    match d.elem
    case Varying(length) => OStr(if v.Null? then [] else UpToNul(Clip(rt.toStr(v), length + 1)))
    case Text(length) =>
      if v.Null? then OStr([])
      else var t := Clip(rt.toStr(v), length); OStr(if StrLen(t) < |t| then UpToNul(t) else Rtrim(t))
    case _ => OInt(if v.Null? then 0 else rt.toLong(v))
  }

  function UpToNul(s: seq<Byte>): seq<Byte> { s[..StrLen(s)] }

  lemma LeafRoundTrip(rt: Runtime, d: Desc, v: Value, was: seq<Byte>)
    requires d.Valid() && |was| == d.ElSize() && EncodeLeaf(rt, d, v, was).Some?
    ensures DecodeLeaf(d, EncodeLeaf(rt, d, v, was).value) == NormLeaf(rt, d, v)
  {
    hide StrLen, Rtrim, Fill, ToBytes, FromBytes, UpToNul;
    if v.Null? { NullRoundTrip(d, |was|); }
    else if d.elem.Varying? || d.elem.Text? { StringLeaf(rt, d, v, was); }
    else {
      match d.elem
      case Short => ShortRoundTrips(rt.toLong(v));
      case Long => LongRoundTrips(rt.toLong(v));
      case BigInt => BigIntRoundTrips(rt.toLong(v));
    }
  }

  lemma StringLeaf(rt: Runtime, d: Desc, v: Value, was: seq<Byte>)
    requires d.Valid() && |was| == d.ElSize() && (d.elem.Varying? || d.elem.Text?) && !v.Null? &&
             EncodeLeaf(rt, d, v, was).Some?
    ensures DecodeLeaf(d, EncodeLeaf(rt, d, v, was).value) == NormLeaf(rt, d, v)
  {
    hide StrLen, Rtrim, Fill, UpToNul;
    if d.elem.Varying? { VaryingRoundTrip(Clip(rt.toStr(v), |was|), was); }
    else { TextRoundTrip(Clip(rt.toStr(v), |was|), |was|); }
  }

  lemma ShortRoundTrips(n: int)
    requires -0x8000 <= n < 0x8000
    ensures FromBytes(ToBytes(n, 2)) == n
  {
    Widths();
    IntRoundTrip(n, 2);
  }

  lemma LongRoundTrips(n: int)
    requires -0x8000_0000 <= n < 0x8000_0000
    ensures FromBytes(ToBytes(n, 4)) == n
  {
    Widths();
    IntRoundTrip(n, 4);
  }

  lemma BigIntRoundTrips(n: Int64)
    ensures FromBytes(ToBytes(n, 8)) == n
  {
    Widths();
    IntRoundTrip(n, 8);
  }

  lemma Widths()
    ensures Pow256(2) == 0x1_0000 && Pow256(4) == 0x1_0000_0000 && Pow256(8) == 0x1_0000_0000_0000_0000
  {
    assert Pow256(4) == 0x1_0000 * Pow256(2);
    assert Pow256(6) == 0x1_0000 * Pow256(4);
    assert Pow256(8) == 0x1_0000 * Pow256(6);
  }

  lemma NullRoundTrip(d: Desc, n: nat)
    requires d.Valid() && n == d.ElSize()
    ensures DecodeLeaf(d, Fill(0, n)) == if d.elem.Varying? || d.elem.Text? then OStr([]) else OInt(0)
  {
    ZeroInt(n);
  }

  lemma VaryingRoundTrip(t: seq<Byte>, was: seq<Byte>)
    requires |t| < |was|
    ensures var data := t + [0] + was[|t| + 1..]; data[..StrLen(data[..|data| - 1])] == UpToNul(t)
  {
    var data := t + [0] + was[|t| + 1..];
    StrLenIs(data[..|data| - 1], t, StrLen(t));
  }

  lemma TextRoundTrip(t: seq<Byte>, n: nat)
    requires |t| < n
    ensures var data := t + Fill(32, n - |t|);
            (if StrLen(data) == |data| then Rtrim(data) else data[..StrLen(data)]) == if StrLen(t) < |t| then UpToNul(t)
            else Rtrim(t)
  {
    var data := t + Fill(32, n - |t|);
    StrLenIs(data, t, StrLen(t));
    if StrLen(t) == |t| { RtrimFill(t, n - |t|); }
  }

  lemma ZeroInt(k: nat)
    ensures k > 0 ==> FromBytes(Fill(0, k)) == 0
  {
    if k > 1 { ZeroInt(k - 1); assert Fill(0, k)[1..] == Fill(0, k - 1); }
  }

  /** The first NUL of data that begins with `t`. */
  lemma StrLenIs(data: seq<Byte>, t: seq<Byte>, n: nat)
    requires t <= data && n == StrLen(t)
    ensures n < |t| ==> StrLen(data) == n
    ensures n == |t| && |t| < |data| && data[n] == 0 ==> StrLen(data) == n
    ensures n == |t| && (forall i :: n <= i < |data| ==> data[i] != 0) ==> StrLen(data) == |data|
  {}

  lemma {:induction false} RtrimFill(t: seq<Byte>, n: nat)
    ensures Rtrim(t + Fill(32, n)) == Rtrim(t)
  {
    var s := t + Fill(32, n);
    if n == 0 { assert s == t; }
    else {
      assert s[..|s| - 1] == t + Fill(32, n - 1);
      RtrimFill(t, n - 1);
    }
  }

  /** Exactly which strings a VARCHAR and a CHAR element give back unchanged. */
  lemma FaithfulStrings(rt: Runtime, d: Desc, v: Value)
    requires d.Valid() && !v.Null?
    ensures var s := rt.toStr(v);
            && (d.elem.Varying? ==> (NormLeaf(rt, d, v) == OStr(s) <==> |s| <= d.elem.length && 0 !in s))
            && (d.elem.Text? ==> (NormLeaf(rt, d, v) == OStr(s) <==>
                 |s| < d.elem.length && 0 !in s && (s != [] ==> s[|s| - 1] != 32)))
  {
    var s := rt.toStr(v);
    assert StrLen(s) == |s| ==> 0 !in s;
    assert 0 !in s ==> StrLen(s) == |s|;
  }

  // ------------------------------------------------------------ whole arrays

  /** Element `i` of a value: a short array is padded with NULL, a scalar is used for every element. */
  function Sub(v: Value, i: nat): Value {
    if !v.Arr? then v else if i < |v.elems| then v.elems[i] else Null
  }

  /** The bytes of the slices from the i-th one on, at depth `dim`. */
  function Rest(d: Desc, dim: nat, i: nat): (r: nat)
    requires dim < |d.bounds| && i <= d.Len(dim)
    ensures i == 0 ==> r == d.Size(dim)
    ensures i == d.Len(dim) ==> r == 0
  {
    (d.Len(dim) - i) * d.Size(dim + 1)
  }

  lemma RestStep(d: Desc, dim: nat, i: nat)
    requires dim < |d.bounds| && i < d.Len(dim)
    ensures Rest(d, dim, i) == d.Size(dim + 1) + Rest(d, dim, i + 1)
  {
    Distribute(d.Len(dim) - i, 1, d.Size(dim + 1));
  }

  /** What _php_fbird_bind_array makes of a buffer that held `was`. */
  function Encode(rt: Runtime, d: Desc, v: Value, dim: nat, was: seq<Byte>): (r: Option<seq<Byte>>)
    requires d.Valid() && dim <= |d.bounds| && |was| == d.Size(dim)
    ensures r.Some? ==> |r.value| == |was|
    decreases |d.bounds| - dim, 1, 0
  {
    if dim == |d.bounds| then EncodeLeaf(rt, d, v, was) else EncodeFrom(rt, d, v, dim, 0, was)
  }

  function EncodeFrom(rt: Runtime, d: Desc, v: Value, dim: nat, i: nat, was: seq<Byte>): (r: Option<seq<Byte>>)
    requires d.Valid() && dim < |d.bounds| && i <= d.Len(dim) && |was| == Rest(d, dim, i)
    ensures r.Some? ==> |r.value| == |was|
    decreases |d.bounds| - dim, 0, d.Len(dim) - i
  {
    if i == d.Len(dim) then Some([])
    else
      RestStep(d, dim, i);
      var size := d.Size(dim + 1);
      var head := Encode(rt, d, Sub(v, i), dim + 1, was[..size]);
      if head.None? then None else Prepend(head.value, EncodeFrom(rt, d, v, dim, i + 1, was[size..]))
  }

  function Prepend(a: seq<Byte>, b: Option<seq<Byte>>): Option<seq<Byte>> {
    if b.None? then None else Some(a + b.value)
  }

  /** What _php_fbird_arr_zval makes of such a buffer. */
  function Decode(d: Desc, dim: nat, data: seq<Byte>): Out
    requires d.Valid() && dim <= |d.bounds| && |data| == d.Size(dim)
    decreases |d.bounds| - dim, 1, 0
  {
    if dim == |d.bounds| then DecodeLeaf(d, data) else OArr(d.bounds[dim].0, DecodeFrom(d, dim, 0, data))
  }

  function DecodeFrom(d: Desc, dim: nat, i: nat, data: seq<Byte>): (r: seq<Out>)
    requires d.Valid() && dim < |d.bounds| && i <= d.Len(dim) && |data| == Rest(d, dim, i)
    ensures |r| == d.Len(dim) - i
    decreases |d.bounds| - dim, 0, d.Len(dim) - i
  {
    if i == d.Len(dim) then []
    else
      RestStep(d, dim, i);
      var size := d.Size(dim + 1);
      [Decode(d, dim + 1, data[..size])] + DecodeFrom(d, dim, i + 1, data[size..])
  }

  /** The value an array column gives back for a value that was stored: short arrays padded, long ones cut,
      scalars spread, keys counted from the lower bound. */
  function Norm(rt: Runtime, d: Desc, v: Value, dim: nat): Out
    requires d.Valid() && dim <= |d.bounds|
    decreases |d.bounds| - dim
  {
    if dim == |d.bounds| then NormLeaf(rt, d, v)
    else OArr(d.bounds[dim].0, seq(d.Len(dim), i requires 0 <= i < d.Len(dim) => Norm(rt, d, Sub(v, i), dim + 1)))
  }

  /** Every element that is stored is in range. */
  predicate InRange(rt: Runtime, d: Desc, v: Value, dim: nat)
    requires d.Valid() && dim <= |d.bounds|
    decreases |d.bounds| - dim
  {
    if dim < |d.bounds| then forall i :: 0 <= i < d.Len(dim) ==> InRange(rt, d, Sub(v, i), dim + 1)
    else
      v.Null? ||
      match d.elem
      case Short => -0x8000 <= rt.toLong(v) < 0x8000
      case Long => -0x8000_0000 <= rt.toLong(v) < 0x8000_0000
      case _ => true
  }

  /** Storing succeeds exactly for values in range. */
  lemma {:induction false} EncodeSucceeds(rt: Runtime, d: Desc, v: Value, dim: nat, was: seq<Byte>)
    requires d.Valid() && dim <= |d.bounds| && |was| == d.Size(dim)
    ensures Encode(rt, d, v, dim, was).Some? <==> InRange(rt, d, v, dim)
    decreases |d.bounds| - dim, 1, 0
  {
    if dim < |d.bounds| { EncodeFromSucceeds(rt, d, v, dim, 0, was); }
  }

  lemma {:induction false} EncodeFromSucceeds(rt: Runtime, d: Desc, v: Value, dim: nat, i: nat, was: seq<Byte>)
    requires d.Valid() && dim < |d.bounds| && i <= d.Len(dim) && |was| == Rest(d, dim, i)
    ensures EncodeFrom(rt, d, v, dim, i, was).Some? <==> forall j :: i <= j < d.Len(dim) ==>
              InRange(rt, d, Sub(v, j), dim + 1)
    decreases |d.bounds| - dim, 0, d.Len(dim) - i
  {
    if i < d.Len(dim) {
      RestStep(d, dim, i);
      var size := d.Size(dim + 1);
      EncodeSucceeds(rt, d, Sub(v, i), dim + 1, was[..size]);
      EncodeFromSucceeds(rt, d, v, dim, i + 1, was[size..]);
    }
  }

  /** Round trip, for any number of dimensions and any bounds. */
  lemma {:induction false} RoundTrip(rt: Runtime, d: Desc, v: Value, dim: nat, was: seq<Byte>)
    requires d.Valid() && dim <= |d.bounds| && |was| == d.Size(dim) && Encode(rt, d, v, dim, was).Some?
    ensures Decode(d, dim, Encode(rt, d, v, dim, was).value) == Norm(rt, d, v, dim)
    decreases |d.bounds| - dim, 1, 0
  {
    if dim == |d.bounds| { LeafRoundTrip(rt, d, v, was); } else { SlicesRoundTrip(rt, d, v, dim, 0, was); }
  }

  lemma {:induction false} SlicesRoundTrip(rt: Runtime, d: Desc, v: Value, dim: nat, i: nat, was: seq<Byte>)
    requires d.Valid() && dim < |d.bounds| && i <= d.Len(dim) && |was| == Rest(d, dim, i) &&
             EncodeFrom(rt, d, v, dim, i, was).Some?
    ensures DecodeFrom(d, dim, i, EncodeFrom(rt, d, v, dim, i, was).value) == Norm(rt, d, v, dim).elems[i..]
    decreases |d.bounds| - dim, 0, d.Len(dim) - i
  {
    NormLength(rt, d, v, dim);
    if i == d.Len(dim) { assert was == []; }
    else {
      hide Encode, EncodeFrom, Decode, DecodeFrom, Norm, Rest;
      var (size, r) := (d.Size(dim + 1), EncodeFrom(rt, d, v, dim, i, was).value);
      FirstSlice(rt, d, v, dim, i, was);
      DecodeFirst(d, dim, i, r);
      NormFirst(rt, d, v, dim, i);
      RoundTrip(rt, d, Sub(v, i), dim + 1, Piece(was, 0, size));
      SlicesRoundTrip(rt, d, v, dim, i + 1, was[size..]);
    }
  }

  lemma DecodeFirst(d: Desc, dim: nat, i: nat, data: seq<Byte>)
    requires d.Valid() && dim < |d.bounds| && i < d.Len(dim) && |data| == Rest(d, dim, i)
    ensures var size := d.Size(dim + 1);
            && size <= |data| && |data| - size == Rest(d, dim, i + 1)
            && DecodeFrom(d, dim, i, data) == [Decode(d, dim + 1, Piece(data, 0, size))] +
               DecodeFrom(d, dim, i + 1, Piece(data, size, |data| - size))
  {
    RestStep(d, dim, i);
    var size := d.Size(dim + 1);
    assert Piece(data, 0, size) == data[..size] && Piece(data, size, |data| - size) == data[size..];
  }

  lemma NormLength(rt: Runtime, d: Desc, v: Value, dim: nat)
    requires d.Valid() && dim < |d.bounds|
    ensures var n := Norm(rt, d, v, dim); n.OArr? && |n.elems| == d.Len(dim)
  {}

  lemma NormFirst(rt: Runtime, d: Desc, v: Value, dim: nat, i: nat)
    requires d.Valid() && dim < |d.bounds| && i < d.Len(dim)
    ensures var n := Norm(rt, d, v, dim);
            n.OArr? && |n.elems| == d.Len(dim) && n.elems[i..] == [Norm(rt, d, Sub(v, i), dim + 1)] + n.elems[i + 1..]
  {}

  // ------------------------------------------------------------ tiling

  /** A full index below depth `dim`. */
  predicate Index(d: Desc, dim: nat, idx: seq<nat>)
    requires dim <= |d.bounds|
    decreases |idx|
  {
    if dim == |d.bounds| then idx == []
    else idx != [] && idx[0] < d.Len(dim) && Index(d, dim + 1, idx[1..])
  }

  /** Where the element at `idx` starts. */
  function Offset(d: Desc, dim: nat, idx: seq<nat>): nat
    requires dim <= |d.bounds| && Index(d, dim, idx)
    decreases |idx|
  {
    if idx == [] then 0 else idx[0] * d.Size(dim + 1) + Offset(d, dim + 1, idx[1..])
  }

  function LeafOf(v: Value, idx: seq<nat>): Value
    decreases |idx|
  {
    if idx == [] then v else LeafOf(Sub(v, idx[0]), idx[1..])
  }

  /** No element leaves the buffer. */
  lemma {:induction false} OffsetInside(d: Desc, dim: nat, idx: seq<nat>)
    requires dim <= |d.bounds| && Index(d, dim, idx)
    ensures Offset(d, dim, idx) + d.ElSize() <= d.Size(dim)
    decreases |idx|
  {
    if idx != [] {
      OffsetInside(d, dim + 1, idx[1..]);
      RestStep(d, dim, idx[0]);
      Distribute(d.Len(dim), idx[0], d.Size(dim + 1));
    }
  }

  /** Two elements do not overlap. */
  lemma {:induction false} OffsetsApart(d: Desc, dim: nat, a: seq<nat>, b: seq<nat>)
    requires dim <= |d.bounds| && Index(d, dim, a) && Index(d, dim, b) && a != b
    ensures Offset(d, dim, a) + d.ElSize() <= Offset(d, dim, b) || Offset(d, dim, b) + d.ElSize() <= Offset(d, dim, a)
    decreases |a|
  {
    if a[0] == b[0] {
      assert a == [a[0]] + a[1..] && b == [b[0]] + b[1..];
      OffsetsApart(d, dim + 1, a[1..], b[1..]);
    } else {
      OffsetInside(d, dim + 1, a[1..]);
      OffsetInside(d, dim + 1, b[1..]);
      Distribute(a[0], b[0], d.Size(dim + 1));
      Distribute(b[0], a[0], d.Size(dim + 1));
      if a[0] < b[0] { AtLeast(b[0] - a[0], d.Size(dim + 1)); } else { AtLeast(a[0] - b[0], d.Size(dim + 1)); }
    }
  }

  /** The element that byte `p` belongs to. */
  function IndexOf(d: Desc, dim: nat, p: nat): seq<nat>
    requires d.Valid() && dim <= |d.bounds| && p < d.Size(dim)
    decreases |d.bounds| - dim
  {
    if dim == |d.bounds| then []
    else
      SliceOfByte(d, dim, p);
      [Quotient(p, d.Size(dim + 1))] + IndexOf(d, dim + 1, Remainder(p, d.Size(dim + 1)))
  }

  function Quotient(p: nat, size: nat): nat
    requires size > 0
  {
    p / size
  }

  function Remainder(p: nat, size: nat): nat
    requires size > 0
  {
    p % size
  }

  lemma SliceOfByte(d: Desc, dim: nat, p: nat)
    requires dim < |d.bounds| && p < d.Size(dim)
    ensures var size := d.Size(dim + 1);
            size > 0 && Quotient(p, size) < d.Len(dim) && p == Quotient(p, size) * size + Remainder(p, size) &&
            Remainder(p, size) < size
  {
    var size := d.Size(dim + 1);
    assert size > 0;
    QuotientBelow(p, size, d.Len(dim));
  }

  lemma QuotientBelow(p: nat, size: nat, n: nat)
    requires size > 0 && p < n * size
    ensures Quotient(p, size) < n && p == Quotient(p, size) * size + Remainder(p, size) && Remainder(p, size) < size
  {
    var q := p / size;
    assert p == q * size + p % size;
    if q >= n {
      Distribute(q, n, size);
      if q > n { AtLeast(q - n, size); }
    }
  }

  /** Every byte belongs to some element. */
  lemma {:induction false} OffsetsCover(d: Desc, dim: nat, p: nat)
    requires d.Valid() && dim <= |d.bounds| && p < d.Size(dim)
    ensures var idx := IndexOf(d, dim, p);
            Index(d, dim, idx) && Offset(d, dim, idx) <= p < Offset(d, dim, idx) + d.ElSize()
    decreases |d.bounds| - dim
  {
    if dim < |d.bounds| {
      SliceOfByte(d, dim, p);
      hide Quotient, Remainder;
      var r := Remainder(p, d.Size(dim + 1));
      OffsetsCover(d, dim + 1, r);
      assert IndexOf(d, dim, p)[1..] == IndexOf(d, dim + 1, r);
    }
  }

  function Piece(s: seq<Byte>, at: nat, n: nat): seq<Byte>
    requires at + n <= |s|
  {
    s[at..at + n]
  }

  lemma PieceOfPiece(s: seq<Byte>, at: nat, n: nat, b: nat, k: nat)
    requires at + n <= |s| && b + k <= n
    ensures Piece(Piece(s, at, n), b, k) == Piece(s, at + b, k)
  {
    var (x, y) := (s[at..at + n][b..b + k], s[at + b..at + b + k]);
    assert |x| == |y| == k;
    assert forall j :: 0 <= j < k ==> x[j] == y[j];
  }

  /** The slot of each element holds the bytes of that element and of no other. */
  lemma {:induction false} SlotHolds(rt: Runtime, d: Desc, v: Value, dim: nat, was: seq<Byte>, idx: seq<nat>)
    requires d.Valid() && dim <= |d.bounds| && |was| == d.Size(dim) && Encode(rt, d, v, dim, was).Some? &&
             Index(d, dim, idx)
    ensures var (at, n) := (Offset(d, dim, idx), d.ElSize());
            && at + n <= |was|
            && EncodeLeaf(rt, d, LeafOf(v, idx), Piece(was, at, n)) ==
                 Some(Piece(Encode(rt, d, v, dim, was).value, at, n))
    decreases |idx|
  {
    OffsetInside(d, dim, idx);
    var r := Encode(rt, d, v, dim, was).value;
    if idx == [] {
      assert Piece(was, 0, |was|) == was && Piece(r, 0, |was|) == r;
    } else {
      var (size, i) := (d.Size(dim + 1), idx[0]);
      OffsetInside(d, dim + 1, idx[1..]);
      SliceOf(rt, d, v, dim, 0, was, i);
      SlotHolds(rt, d, Sub(v, i), dim + 1, Piece(was, i * size, size), idx[1..]);
      PieceOfPiece(was, i * size, size, Offset(d, dim + 1, idx[1..]), d.ElSize());
      PieceOfPiece(r, i * size, size, Offset(d, dim + 1, idx[1..]), d.ElSize());
    }
  }

  lemma {:induction false} SliceOf(rt: Runtime, d: Desc, v: Value, dim: nat, i: nat, was: seq<Byte>, j: nat)
    requires d.Valid() && dim < |d.bounds| && i <= j < d.Len(dim) && |was| == Rest(d, dim, i) &&
             EncodeFrom(rt, d, v, dim, i, was).Some?
    ensures var size := d.Size(dim + 1);
            && 0 <= (j - i) * size && (j - i) * size + size <= |was|
            && Encode(rt, d, Sub(v, j), dim + 1, Piece(was, (j - i) * size, size)) ==
                 Some(Piece(EncodeFrom(rt, d, v, dim, i, was).value, (j - i) * size, size))
    decreases j - i
  {
    hide Encode, EncodeFrom, Piece, Rest;
    FirstSlice(rt, d, v, dim, i, was);
    var size := d.Size(dim + 1);
    var r := EncodeFrom(rt, d, v, dim, i, was).value;
    if i < j {
      SliceOf(rt, d, v, dim, i + 1, was[size..], j);
      Distribute(j - i, 1, size);
      var k := (j - i - 1) * size;
      assert (j - (i + 1)) * size == k && (j - i) * size == size + k;
      PieceOfPiece(was, size, |was| - size, k, size);
      PieceOfPiece(r, size, |was| - size, k, size);
    } else {
      assert (j - i) * size == 0;
    }
  }

  lemma FirstSlice(rt: Runtime, d: Desc, v: Value, dim: nat, i: nat, was: seq<Byte>)
    requires d.Valid() && dim < |d.bounds| && i < d.Len(dim) && |was| == Rest(d, dim, i) &&
             EncodeFrom(rt, d, v, dim, i, was).Some?
    ensures var (size, r) := (d.Size(dim + 1), EncodeFrom(rt, d, v, dim, i, was).value);
            && size <= |was| && |was| - size == Rest(d, dim, i + 1)
            && Encode(rt, d, Sub(v, i), dim + 1, Piece(was, 0, size)) == Some(Piece(r, 0, size))
            && was[size..] == Piece(was, size, |was| - size)
            && EncodeFrom(rt, d, v, dim, i + 1, was[size..]) == Some(Piece(r, size, |was| - size))
  {
    hide Desc.Size, Desc.Len, Rest, Sub;
    RestStep(d, dim, i);
    var size := d.Size(dim + 1);
    var (head, tail) := (Encode(rt, d, Sub(v, i), dim + 1, was[..size]), EncodeFrom(rt, d, v, dim, i + 1, was[size..]));
    assert was[0..size] == was[..size] && was[size..|was|] == was[size..];
    HeadAndTail(head.value, tail.value, size, |was|);
  }

  lemma HeadAndTail(a: seq<Byte>, b: seq<Byte>, n: nat, m: nat)
    requires |a| == n && n + |b| == m
    ensures (a + b)[0..n] == a && (a + b)[n..m] == b
  {}

  // ------------------------------------------------------------ the two recursions over the buffer

  /** Nothing outside the `size` bytes at `off` differs from `before`. */
  ghost predicate Outside(buf: array<Byte>, before: seq<Byte>, off: nat, size: nat)
    reads buf
  {
    |before| == buf.Length && forall p :: 0 <= p < buf.Length && (p < off || off + size <= p) ==> buf[p] == before[p]
  }

  /** memcpy of `bytes` to buf + at. */
  method Store(buf: array<Byte>, at: nat, bytes: seq<Byte>)
    requires at + |bytes| <= buf.Length
    modifies buf
    ensures Outside(buf, old(buf[..]), at, |bytes|) && buf[at..at + |bytes|] == bytes
  {
    forall k | 0 <= k < |bytes| { buf[at + k] := bytes[k]; }
  }

  /** A VARCHAR slot: the string as far as it fits, and a NUL. */
  method StoreVarying(buf: array<Byte>, at: nat, size: nat, s: seq<Byte>)
    requires 0 < size && at + size <= buf.Length
    modifies buf
    ensures Outside(buf, old(buf[..]), at, size)
    ensures var t := Clip(s, size); buf[at..at + size] == t + [0] + old(buf[at..at + size])[|t| + 1..]
  {
    var n := if |s| > size - 1 then size - 1 else |s|;
    ghost var was := buf[at..at + size];
    Store(buf, at, s[..n]);
    buf[at + n] := 0;
    assert buf[at..at + n] == s[..n];
    assert buf[at..at + size] == buf[at..at + n] + [0] + was[n + 1..];
  }

  /** A CHAR slot: the string without what would reach the last byte, and spaces. */
  method StoreText(buf: array<Byte>, at: nat, size: nat, s: seq<Byte>)
    requires 0 < size && at + size <= buf.Length
    modifies buf
    ensures Outside(buf, old(buf[..]), at, size)
    ensures var t := Clip(s, size); buf[at..at + size] == t + Fill(32, size - |t|)
  {
    var n := if |s| >= size then size - 1 else |s|;
    Store(buf, at, s[..n]);
    ghost var head := buf[at..at + n];
    Store(buf, at + n, Fill(32, size - n));
    assert buf[at..at + n] == head;
    assert buf[at..at + size] == buf[at..at + n] + buf[at + n..at + size];
  }

  /** The bottom of _php_fbird_bind_array: one value into a slot of `size` bytes. */
  method BindLeaf(rt: Runtime, d: Desc, v: Value, buf: array<Byte>, at: nat, size: nat) returns (ok: bool)
    requires d.Valid() && size == d.ElSize() && at + size <= buf.Length
    modifies buf
    ensures Outside(buf, old(buf[..]), at, size)
    ensures ok == EncodeLeaf(rt, d, v, old(buf[at..at + size])).Some?
    ensures ok ==> EncodeLeaf(rt, d, v, old(buf[at..at + size])) == Some(buf[at..at + size])
  {
    ok := true;
    if v.Null? { Store(buf, at, Fill(0, size)); return; }
    match d.elem {
      case Short =>
        var l := rt.toLong(v);
        if l > 0x7FFF || l < -0x8000 { ok := false; } else { Store(buf, at, ToBytes(l, 2)); }
      case Long =>
        var l := rt.toLong(v);
        if l > 0x7FFF_FFFF || l < -0x8000_0000 { ok := false; } else { Store(buf, at, ToBytes(l, 4)); }
      case BigInt => Store(buf, at, ToBytes(rt.toLong(v), 8));
      case Varying(_) => StoreVarying(buf, at, size, rt.toStr(v));
      case Text(_) => StoreText(buf, at, size, rt.toStr(v));
    }
  }

  /** _php_fbird_bind_array. On failure the slices before the failing one have been written, but nothing
      outside the region. */
  method BindArray(rt: Runtime, d: Desc, v: Value, buf: array<Byte>, off: nat, size: nat, dim: nat) returns (ok: bool)
    requires d.Valid() && dim <= |d.bounds| && size == d.Size(dim) && off + size <= buf.Length
    modifies buf
    ensures Outside(buf, old(buf[..]), off, size)
    ensures ok == Encode(rt, d, v, dim, old(buf[off..off + size])).Some?
    ensures ok ==> Encode(rt, d, v, dim, old(buf[off..off + size])) == Some(buf[off..off + size])
    decreases |d.bounds| - dim
  {
    hide Encode, EncodeFrom, EncodeLeaf, Prepend, Rest;
    ghost var was := buf[off..off + size];
    EncodeUnfolds(rt, d, v, dim, was);
    if dim == |d.bounds| {
      ok := BindLeaf(rt, d, v, buf, off, size);
      return;
    }
    DivisionIsExact(d, dim);
    var slice := size / d.Len(dim);
    hide Desc.Size, Desc.Len;
    var i, at := 0, off;
    assert was[0..] == was && buf[off..off] == [];
    while i < d.Len(dim)
      invariant i <= d.Len(dim) && off <= at <= off + size && off + size - at == Rest(d, dim, i)
      invariant Outside(buf, old(buf[..]), off, at - off)
      invariant EncodeFrom(rt, d, v, dim, 0, was) ==
                  Prepend(buf[off..at], EncodeFrom(rt, d, v, dim, i, was[at - off..]))
    {
      RestStep(d, dim, i);
      ghost var done := buf[off..at];
      StillThere(old(buf[..]), buf[..], off, at, slice, size);
      ok := BindArray(rt, d, Sub(v, i), buf, at, slice, dim + 1);
      OneSlice(rt, d, v, dim, i, was, at - off, done, if ok then Some(buf[at..at + slice]) else None);
      if !ok { return; }
      Extended(buf[off..at + slice], done, buf[at..at + slice]);
      at := at + slice;
      i := i + 1;
    }
    ok := true;
    assert was[at - off..] == [];
    NoSlicesLeft(rt, d, v, dim, buf[off..at]);
  }

  /** What the loop has not reached is as it was. */
  lemma StillThere(before: seq<Byte>, now: seq<Byte>, off: nat, at: nat, slice: nat, size: nat)
    requires off <= at && at + slice <= off + size <= |before| == |now|
    requires forall p :: at <= p < |now| ==> now[p] == before[p]
    ensures now[at..at + slice] == before[off..off + size][at - off..][..slice]
  {
    var (a, b) := (now[at..at + slice], before[off..off + size][at - off..][..slice]);
    assert |a| == |b| == slice;
    assert forall j :: 0 <= j < slice ==> a[j] == now[at + j] && b[j] == before[at + j];
  }

  lemma Extended(s: seq<Byte>, a: seq<Byte>, b: seq<Byte>)
    requires |s| == |a| + |b| && s[..|a|] == a && s[|a|..] == b
    ensures s == a + b
  {}

  lemma DecodeUnfolds(d: Desc, dim: nat, data: seq<Byte>)
    requires d.Valid() && dim <= |d.bounds| && |data| == d.Size(dim)
    ensures dim == |d.bounds| ==> Decode(d, dim, data) == DecodeLeaf(d, data)
    ensures dim < |d.bounds| ==> Decode(d, dim, data) == OArr(d.bounds[dim].0, DecodeFrom(d, dim, 0, data))
  {}

  lemma NextElement(d: Desc, dim: nat, i: nat, data: seq<Byte>)
    requires d.Valid() && dim < |d.bounds| && i < d.Len(dim) && |data| == Rest(d, dim, i)
    ensures var size := d.Size(dim + 1);
            && |data| == size + Rest(d, dim, i + 1)
            && DecodeFrom(d, dim, i, data) == [Decode(d, dim + 1, data[..size])] +
               DecodeFrom(d, dim, i + 1, data[size..])
  {
    RestStep(d, dim, i);
  }

  lemma EncodeUnfolds(rt: Runtime, d: Desc, v: Value, dim: nat, was: seq<Byte>)
    requires d.Valid() && dim <= |d.bounds| && |was| == d.Size(dim)
    ensures dim == |d.bounds| ==> Encode(rt, d, v, dim, was) == EncodeLeaf(rt, d, v, was)
    ensures dim < |d.bounds| ==>
              Encode(rt, d, v, dim, was) == EncodeFrom(rt, d, v, dim, 0, was) ==
                  Prepend([], EncodeFrom(rt, d, v, dim, 0, was))
  {
    if dim < |d.bounds| { PrependNone(EncodeFrom(rt, d, v, dim, 0, was)); }
  }

  lemma NoSlicesLeft(rt: Runtime, d: Desc, v: Value, dim: nat, done: seq<Byte>)
    requires d.Valid() && dim < |d.bounds|
    ensures Prepend(done, EncodeFrom(rt, d, v, dim, d.Len(dim), [])) == Some(done)
  {
    PrependNone(Some(done));
  }

  /** One round of the loop: `done` bytes are written, `piece` is what the next slice became. */
  lemma OneSlice(rt: Runtime, d: Desc, v: Value, dim: nat, i: nat, was: seq<Byte>, k: nat, done: seq<Byte>,
                 piece: Option<seq<Byte>>)
    requires d.Valid() && dim < |d.bounds| && i < d.Len(dim) && |was| == d.Size(dim) && k <= |was| &&
             |was| - k == Rest(d, dim, i)
    requires EncodeFrom(rt, d, v, dim, 0, was) == Prepend(done, EncodeFrom(rt, d, v, dim, i, was[k..]))
    requires d.Size(dim + 1) <= |was| - k && Encode(rt, d, Sub(v, i), dim + 1, was[k..][..d.Size(dim + 1)]) == piece
    ensures var at := k + d.Size(dim + 1);
            && |was| - at == Rest(d, dim, i + 1)
            && EncodeFrom(rt, d, v, dim, 0, was) ==
                 if piece.None? then None else Prepend(done + piece.value, EncodeFrom(rt, d, v, dim, i + 1, was[at..]))
  {
    RestStep(d, dim, i);
    var size := d.Size(dim + 1);
    assert was[k..][size..] == was[k + size..];
    var rest := EncodeFrom(rt, d, v, dim, i + 1, was[k + size..]);
    if piece.Some? && rest.Some? { assert done + (piece.value + rest.value) == (done + piece.value) + rest.value; }
  }

  lemma PrependNone(c: Option<seq<Byte>>)
    ensures Prepend([], c) == c && (c.Some? ==> Prepend(c.value, Some([])) == c)
  {
    if c.Some? { assert [] + c.value == c.value && c.value + [] == c.value; }
  }

  /** _php_fbird_arr_zval */
  method ArrZval(d: Desc, buf: array<Byte>, off: nat, size: nat, dim: nat) returns (out: Out)
    requires d.Valid() && dim <= |d.bounds| && size == d.Size(dim) && off + size <= buf.Length
    ensures out == Decode(d, dim, buf[off..off + size])
    decreases |d.bounds| - dim
  {
    hide Decode, DecodeFrom, DecodeLeaf, Rest;
    DecodeUnfolds(d, dim, buf[off..off + size]);
    if dim == |d.bounds| { return DecodeLeaf(d, buf[off..off + size]); }
    DivisionIsExact(d, dim);
    var slice := size / d.Len(dim);
    var elems := [];
    var i, at := 0, off;
    while i < d.Len(dim)
      invariant i <= d.Len(dim) && off <= at <= off + size && off + size - at == Rest(d, dim, i)
      invariant DecodeFrom(d, dim, 0, buf[off..off + size]) == elems + DecodeFrom(d, dim, i, buf[at..off + size])
    {
      NextElement(d, dim, i, buf[at..off + size]);
      var element := ArrZval(d, buf, at, slice, dim + 1);
      assert buf[at..off + size][..slice] == buf[at..at + slice] &&
             buf[at..off + size][slice..] == buf[at + slice..off + size];
      elems := elems + [element];
      at := at + slice;
      i := i + 1;
    }
    out := OArr(d.bounds[dim].0, elems);
  }

  // ------------------------------------------------------------ what is stored where, and what comes back

  /** The leaf that a value stores at a position: an element of an array at the same position, NULL past the end
      of a short array, and a scalar (or NULL) at every position. */
  function Stored(v: Value, idx: seq<nat>): Value
    decreases |idx|
  {
    if idx == [] then v
    else
      match v
      case Arr(elems) => if idx[0] < |elems| then Stored(elems[idx[0]], idx[1..]) else Null
      case _ => v
  }

  /** Keys within the declared bounds, from dimension `dim` on. */
  predicate Keys(d: Desc, dim: nat, keys: seq<int>) {
    && |d.bounds| == dim + |keys|
    && forall j :: 0 <= j < |keys| ==> d.bounds[dim + j].0 <= keys[j] <= d.bounds[dim + j].1
  }

  /** Counted from the lower bounds. */
  function Positions(d: Desc, dim: nat, keys: seq<int>): (r: seq<nat>)
    requires Keys(d, dim, keys)
    ensures |r| == |keys|
  {
    seq(|keys|, j requires 0 <= j < |keys| => keys[j] - d.bounds[dim + j].0)
  }

  /** The element of a PHP array of arrays with the given keys. */
  function Lookup(out: Out, keys: seq<int>): Option<Out>
    decreases |keys|
  {
    if keys == [] then Some(out)
    else if out.OArr? && out.lo <= keys[0] < out.lo + |out.elems| then Lookup(out.elems[keys[0] - out.lo], keys[1..])
    else None
  }

  /** NULL, or a value that fits the element type. */
  predicate Fits(rt: Runtime, d: Desc, leaf: Value) {
    leaf.Null? ||
    match d.elem
    case Short => -32768 <= rt.toLong(leaf) <= 32767
    case Long => -2147483648 <= rt.toLong(leaf) <= 2147483647
    case _ => true
  }

  /** What comes back for a stored leaf. NULL is 0 or the empty string; an integer is what PHP converts it to. A
      VARCHAR is the longest prefix without NUL that is no longer than declared.  A CHAR ends at the first NUL
      before its last byte, or, if there is none, loses that byte and the spaces in front of it. */
  predicate Back(rt: Runtime, d: Desc, leaf: Value, out: Out) {
    match d.elem
    case Varying(length) => out.OStr? && if leaf.Null? then out.s == [] else CutAt(rt.toStr(leaf), length, out.s)
    case Text(length) =>
      out.OStr? &&
      if leaf.Null? then out.s == []
      else
        var s := rt.toStr(leaf);
        if exists i :: 0 <= i < |s| && i < length - 1 && s[i] == 0 then CutAt(s, length - 1, out.s)
        else TrimmedAt(s, length - 1, out.s)
    case _ => out == OInt(if leaf.Null? then 0 else rt.toLong(leaf))
  }

  predicate CutAt(s: seq<Byte>, n: int, r: seq<Byte>) {
    r <= s && |r| <= n && 0 !in r && (|r| == |s| || |r| == n || s[|r|] == 0)
  }

  predicate TrimmedAt(s: seq<Byte>, n: int, r: seq<Byte>) {
    && r <= s && |r| <= n && (r == [] || r[|r| - 1] != 32)
    && forall i :: |r| <= i < |s| && i < n ==> s[i] == 32
  }

  lemma LeafBack(rt: Runtime, d: Desc, v: Value)
    requires d.Valid()
    ensures Back(rt, d, v, NormLeaf(rt, d, v))
  {
    if !v.Null? && d.elem.Text? { TextBack(rt.toStr(v), d.elem.length); }
  }

  lemma TextBack(s: seq<Byte>, length: nat)
    requires length > 0
    ensures var t := Clip(s, length);
            var r := if StrLen(t) < |t| then UpToNul(t) else Rtrim(t);
            if exists i :: 0 <= i < |s| && i < length - 1 && s[i] == 0 then CutAt(s, length - 1, r)
            else TrimmedAt(s, length - 1, r)
  {
    var t := Clip(s, length);
    assert |t| == Min(|s|, length - 1) && forall i :: 0 <= i < |t| ==> t[i] == s[i];
  }

  lemma {:induction false} LookupNorm(rt: Runtime, d: Desc, v: Value, dim: nat, keys: seq<int>)
    requires d.Valid() && |d.bounds| == dim + |keys|
    ensures var r := Lookup(Norm(rt, d, v, dim), keys);
            && (r.Some? <==> Keys(d, dim, keys))
            && (Keys(d, dim, keys) ==> r == Some(NormLeaf(rt, d, Stored(v, Positions(d, dim, keys)))))
    decreases |keys|
  {
    if keys != [] {
      var i := keys[0] - d.bounds[dim].0;
      KeysStep(d, dim, keys);
      if 0 <= i < d.Len(dim) {
        LookupNorm(rt, d, Sub(v, i), dim + 1, keys[1..]);
        if Keys(d, dim, keys) { StoredStep(v, i, Positions(d, dim + 1, keys[1..])); }
      }
    }
  }

  lemma KeysStep(d: Desc, dim: nat, keys: seq<int>)
    requires |d.bounds| == dim + |keys| && keys != []
    ensures var b := d.bounds[dim]; Keys(d, dim, keys) <==> b.0 <= keys[0] <= b.1 && Keys(d, dim + 1, keys[1..])
    ensures Keys(d, dim, keys) ==>
              Positions(d, dim, keys) == [keys[0] - d.bounds[dim].0] + Positions(d, dim + 1, keys[1..])
  {
    if d.bounds[dim].0 <= keys[0] <= d.bounds[dim].1 && Keys(d, dim + 1, keys[1..]) {
      forall j | 0 <= j < |keys| ensures d.bounds[dim + j].0 <= keys[j] <= d.bounds[dim + j].1 {
        if j > 0 { assert keys[1..][j - 1] == keys[j]; }
      }
    }
  }

  lemma StoredStep(v: Value, i: nat, idx: seq<nat>)
    ensures Stored(v, [i] + idx) == Stored(Sub(v, i), idx)
  {
    assert ([i] + idx)[1..] == idx;
  }

  lemma {:induction false} RangeIs(rt: Runtime, d: Desc, v: Value, dim: nat, keys: seq<int>)
    requires d.Valid() && dim <= |d.bounds| && InRange(rt, d, v, dim) && Keys(d, dim, keys)
    ensures Fits(rt, d, Stored(v, Positions(d, dim, keys)))
    decreases |keys|
  {
    if keys != [] {
      var i := keys[0] - d.bounds[dim].0;
      KeysStep(d, dim, keys);
      RangeIs(rt, d, Sub(v, i), dim + 1, keys[1..]);
      StoredStep(v, i, Positions(d, dim + 1, keys[1..]));
    }
  }

  /** The keys of an element that does not fit. */
  lemma {:induction false} Misfit(rt: Runtime, d: Desc, v: Value, dim: nat) returns (keys: seq<int>)
    requires d.Valid() && dim <= |d.bounds| && !InRange(rt, d, v, dim)
    ensures Keys(d, dim, keys) && !Fits(rt, d, Stored(v, Positions(d, dim, keys)))
    decreases |d.bounds| - dim
  {
    if dim == |d.bounds| { keys := []; }
    else {
      var i :| 0 <= i < d.Len(dim) && !InRange(rt, d, Sub(v, i), dim + 1);
      var rest := Misfit(rt, d, Sub(v, i), dim + 1);
      keys := [d.bounds[dim].0 + i] + rest;
      assert keys[1..] == rest;
      KeysStep(d, dim, keys);
      StoredStep(v, i, Positions(d, dim + 1, rest));
    }
  }

  /** Storing succeeds exactly when every leaf stored within the bounds fits. */
  lemma StoresExactly(rt: Runtime, d: Desc, v: Value, was: seq<Byte>)
    requires d.Valid() && |was| == d.Size(0)
    ensures Encode(rt, d, v, 0, was).Some? <==>
              forall keys :: Keys(d, 0, keys) ==> Fits(rt, d, Stored(v, Positions(d, 0, keys)))
  {
    hide Encode, InRange, Keys, Fits, Positions, Stored;
    EncodeSucceeds(rt, d, v, 0, was);
    if InRange(rt, d, v, 0) {
      forall keys | Keys(d, 0, keys) ensures Fits(rt, d, Stored(v, Positions(d, 0, keys))) {
        RangeIs(rt, d, v, 0, keys);
      }
    } else { var keys := Misfit(rt, d, v, 0); }
  }

  /** What has been stored comes back under the keys within the bounds and no others: at each, the leaf stored
      at that position. */
  lemma ComesBack(rt: Runtime, d: Desc, v: Value, was: seq<Byte>, keys: seq<int>)
    requires d.Valid() && |was| == d.Size(0) && Encode(rt, d, v, 0, was).Some? && |keys| == |d.bounds|
    ensures var r := Lookup(Decode(d, 0, Encode(rt, d, v, 0, was).value), keys);
            && (r.Some? <==> Keys(d, 0, keys))
            && (Keys(d, 0, keys) ==> Back(rt, d, Stored(v, Positions(d, 0, keys)), r.value))
  {
    hide Encode, Decode, Norm, Keys, Back, Positions, Stored, NormLeaf;
    RoundTrip(rt, d, v, 0, was);
    LookupNorm(rt, d, v, 0, keys);
    if Keys(d, 0, keys) { LeafBack(rt, d, Stored(v, Positions(d, 0, keys))); }
  }

  lemma {:induction false} LeafOfIs(v: Value, idx: seq<nat>)
    ensures LeafOf(v, idx) == Stored(v, idx)
    decreases |idx|
  {
    if idx != [] {
      LeafOfIs(Sub(v, idx[0]), idx[1..]);
      assert idx == [idx[0]] + idx[1..];
      StoredStep(v, idx[0], idx[1..]);
    }
  }

  /** The slot at `Offset` holds the bytes of the leaf stored at that position. */
  lemma SlotStores(rt: Runtime, d: Desc, v: Value, was: seq<Byte>, idx: seq<nat>)
    requires d.Valid() && |was| == d.Size(0) && Encode(rt, d, v, 0, was).Some? && Index(d, 0, idx)
    ensures var (at, n) := (Offset(d, 0, idx), d.ElSize());
            && at + n <= |was|
            && EncodeLeaf(rt, d, Stored(v, idx), Piece(was, at, n)) ==
                 Some(Piece(Encode(rt, d, v, 0, was).value, at, n))
  {
    hide Encode, EncodeLeaf, Stored;
    SlotHolds(rt, d, v, 0, was, idx);
    LeafOfIs(v, idx);
  }

  /** The next element of the innermost dimension is stored right behind. */
  lemma {:induction false} RowMajor(d: Desc, dim: nat, idx: seq<nat>)
    requires dim < |d.bounds| && Index(d, dim, idx) && Index(d, dim, idx[..|idx| - 1] + [idx[|idx| - 1] + 1])
    ensures Offset(d, dim, idx[..|idx| - 1] + [idx[|idx| - 1] + 1]) == Offset(d, dim, idx) + d.ElSize()
    decreases |idx|
  {
    var (n, next) := (|idx|, idx[..|idx| - 1] + [idx[|idx| - 1] + 1]);
    if n > 1 {
      assert next[1..] == idx[1..][..n - 2] + [idx[1..][n - 2] + 1];
      RowMajor(d, dim + 1, idx[1..]);
    } else {
      assert next == [idx[0] + 1] && next[1..] == [] && idx[1..] == [];
      Distribute(idx[0] + 1, idx[0], d.Size(dim + 1));
    }
  }

  /** Byte i of an integer in memory is its i-th digit to the base 256; a negative one is stored as what is
      missing to the next power. */
  lemma {:induction false} LittleEndian(n: nat, k: nat, i: nat)
    requires i < k
    ensures ToBytes(n, k)[i] == n / Pow256(i) % 256
    decreases i
  {
    if i > 0 {
      LittleEndian(n / 256, k - 1, i - 1);
      DivDiv(n, 256, Pow256(i - 1));
    }
  }

  lemma {:induction false} TwosComplement(n: int, k: nat)
    requires 0 <= n <= Pow256(k)
    ensures ToBytes(-n, k) == ToBytes(Pow256(k) - n, k)
    decreases k
  {
    if k > 0 {
      var (p: int, m: int) := (Pow256(k - 1), (n + 255) / 256);
      assert -n / 256 == -m && (256 * p - n) / 256 == p - m && -n % 256 == (256 * p - n) % 256;
      TwosComplement(m, k - 1);
    }
  }

  /** INTEGER[1:3] and [1, 2, 3], from the parameter to the bytes and back. */
  lemma OneTwoThree(rt: Runtime, was: seq<Byte>)
    requires rt.toLong(Int(1)) == 1 && rt.toLong(Int(2)) == 2 && rt.toLong(Int(3)) == 3 && |was| == 12
    ensures var d := Desc(Long, [(1, 3)]);
            var bytes: seq<Byte> := [1, 0, 0, 0, 2, 0, 0, 0, 3, 0, 0, 0];
            && d.Size(0) == 12 && Encode(rt, d, Arr([Int(1), Int(2), Int(3)]), 0, was) == Some(bytes)
            && Decode(d, 0, bytes) == OArr(1, [OInt(1), OInt(2), OInt(3)])
  {
    var (d, v) := (Desc(Long, [(1, 3)]), Arr([Int(1), Int(2), Int(3)]));
    assert d.Size(1) == 4 && d.Len(0) == 3;
    SmallInt(1);
    SmallInt(2);
    SmallInt(3);
    hide Encode, ToBytes, Norm, Decode;
    var (a: seq<Byte>, b: seq<Byte>, c: seq<Byte>) := ([1, 0, 0, 0], [2, 0, 0, 0], [3, 0, 0, 0]);
    assert a + b + c == [1, 0, 0, 0, 2, 0, 0, 0, 3, 0, 0, 0];
    ThreeSlices(rt, d, v, was, a, b, c);
    RoundTrip(rt, d, v, 0, was);
    NormOfThree(rt, d, v);
  }

  lemma SmallInt(n: Byte)
    requires n < 128
    ensures ToBytes(n, 4) == [n, 0, 0, 0]
  {
    assert ToBytes(0, 1) == [0] && ToBytes(0, 2) == [0, 0] && ToBytes(0, 3) == [0, 0, 0];
  }

  lemma ThreeSlices(rt: Runtime, d: Desc, v: Value, was: seq<Byte>, a: seq<Byte>, b: seq<Byte>, c: seq<Byte>)
    requires d.Valid() && |d.bounds| == 1 && d.Len(0) == 3 && |was| == d.Size(0) == 3 * d.Size(1)
    requires forall w: seq<Byte> :: |w| == d.Size(1) ==>
               && EncodeLeaf(rt, d, Sub(v, 0), w) == Some(a) && EncodeLeaf(rt, d, Sub(v, 1), w) == Some(b)
               && EncodeLeaf(rt, d, Sub(v, 2), w) == Some(c)
    ensures Encode(rt, d, v, 0, was) == Some(a + b + c)
  {
    hide EncodeLeaf, Sub;
    var n := d.Size(1);
    RestStep(d, 0, 0);
    RestStep(d, 0, 1);
    RestStep(d, 0, 2);
    assert EncodeFrom(rt, d, v, 0, 3, was[n..][n..][n..]) == Some([]);
    assert EncodeFrom(rt, d, v, 0, 2, was[n..][n..]) == Some(c + []) && c + [] == c;
    assert EncodeFrom(rt, d, v, 0, 1, was[n..]) == Some(b + c);
    assert EncodeFrom(rt, d, v, 0, 0, was) == Some(a + (b + c));
    assert a + (b + c) == a + b + c;
  }

  lemma NormOfThree(rt: Runtime, d: Desc, v: Value)
    requires d == Desc(Long, [(1, 3)]) && v == Arr([Int(1), Int(2), Int(3)])
    requires rt.toLong(Int(1)) == 1 && rt.toLong(Int(2)) == 2 && rt.toLong(Int(3)) == 3
    ensures Norm(rt, d, v, 0) == OArr(1, [OInt(1), OInt(2), OInt(3)])
  {}

  /** A value stored in a fresh slice and fetched again, as fbird_query_bind.c and fbird_result.c do it. */
  method StoreAndFetch(rt: Runtime, d: Desc, v: Value) returns (ok: bool, out: Out)
    requires d.Valid()
    ensures ok <==> InRange(rt, d, v, 0)
    ensures ok ==> out == Norm(rt, d, v, 0)
    ensures ok <==> forall keys :: Keys(d, 0, keys) ==> Fits(rt, d, Stored(v, Positions(d, 0, keys)))
    ensures ok ==> forall keys :: |keys| == |d.bounds| ==>
              && (Lookup(out, keys).Some? <==> Keys(d, 0, keys))
              && (Keys(d, 0, keys) ==> Back(rt, d, Stored(v, Positions(d, 0, keys)), Lookup(out, keys).value))
  {
    hide Encode, Decode, Norm, InRange, Outside, Keys, Fits, Stored, Positions, Back;
    var size := SliceLength(d);
    var buf := new Byte[size](_ => 0);
    assert buf[0..0 + size] == buf[..];
    ghost var was := buf[..];
    EncodeSucceeds(rt, d, v, 0, was);
    StoresExactly(rt, d, v, was);
    ok := BindArray(rt, d, v, buf, 0, size, 0);
    out := OArr(0, []);
    if ok {
      RoundTrip(rt, d, v, 0, was);
      forall keys | |keys| == |d.bounds|
        ensures Lookup(Norm(rt, d, v, 0), keys).Some? <==> Keys(d, 0, keys)
        ensures Keys(d, 0, keys) ==>
                  Back(rt, d, Stored(v, Positions(d, 0, keys)), Lookup(Norm(rt, d, v, 0), keys).value)
      { ComesBack(rt, d, v, was, keys); }
      out := ArrZval(d, buf, 0, size, 0);
    }
  }

  function OutAt(out: Out, idx: seq<nat>): Option<Out>
    decreases |idx|
  {
    if idx == [] then Some(out)
    else if out.OArr? && idx[0] < |out.elems| then OutAt(out.elems[idx[0]], idx[1..]) else None
  }

  /** What comes back at an index is the stored element at that index, normalised. */
  lemma {:induction false} NormAt(rt: Runtime, d: Desc, v: Value, dim: nat, idx: seq<nat>)
    requires d.Valid() && dim <= |d.bounds| && Index(d, dim, idx)
    ensures OutAt(Norm(rt, d, v, dim), idx) == Some(NormLeaf(rt, d, Stored(v, idx)))
    decreases |idx|
  {
    LeafOfIs(v, idx);
    if idx != [] {
      LeafOfIs(Sub(v, idx[0]), idx[1..]);
      NormAt(rt, d, Sub(v, idx[0]), dim + 1, idx[1..]);
    }
  }
}
