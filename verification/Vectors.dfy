/** The typed vector codec: `vec_of` and `to_vec_of` nested to any depth over the primitive encoders. */
module Vectors {
  import opened Types
  import opened Keys
  import opened Int128

  /** An element encoder together with its decoder: a primitive one, or `vec_of` over another. */
  datatype Schema =
    | OfBool | OfI32 | OfU32 | OfI64 | OfU64 | OfI128 | OfU128 | OfBytes | OfString | OfSymbol
    | VecOf(element: Schema)

  /** The Rust value an encoder takes. */
  datatype Native =
    | NBool(flag: bool)
    | NInt(number: int)
    | NBytes(bytes: seq<byte>)
    | NText(utf8: seq<byte>)
    | NList(items: seq<Native>)

  predicate Tail(b: byte) { 0x80 <= b <= 0xBF }

  /** The byte strings a Rust `str` may hold: the syntax of section 4 of RFC 3629. */
  predicate IsUtf8(b: seq<byte>) {
    || b == []
    || (b[0] < 0x80 && IsUtf8(b[1..]))
    || (|b| >= 2 && 0xC2 <= b[0] <= 0xDF && Tail(b[1]) && IsUtf8(b[2..]))
    || (|b| >= 3 && Tail(b[2]) && IsUtf8(b[3..]) &&
        (if b[0] == 0xE0 then 0xA0 <= b[1] <= 0xBF
         else if b[0] == 0xED then 0x80 <= b[1] <= 0x9F
         else 0xE1 <= b[0] <= 0xEF && Tail(b[1])))
    || (|b| >= 4 && Tail(b[2]) && Tail(b[3]) && IsUtf8(b[4..]) &&
        (if b[0] == 0xF0 then 0x90 <= b[1] <= 0xBF
         else if b[0] == 0xF4 then 0x80 <= b[1] <= 0x8F
         else 0xF1 <= b[0] <= 0xF3 && Tail(b[1])))
  }

  predicate Within(bits: nat, signed: bool, n: int) {
    match (bits, signed)
    case (32, true) => -0x8000_0000 <= n < 0x8000_0000
    case (32, false) => 0 <= n < TWO_32
    case (64, true) => IsI64(n)
    case (64, false) => IsU64(n)
    case (128, true) => IsI128(n)
    case _ => IsU128(n)
  }

  /** The value has the Rust type the encoder asks for. */
  predicate Typed(s: Schema, v: Native)
    decreases s
  {
    match s
    case OfBool => v.NBool?
    case OfI32 => v.NInt? && Within(32, true, v.number)
    case OfU32 => v.NInt? && Within(32, false, v.number)
    case OfI64 => v.NInt? && Within(64, true, v.number)
    case OfU64 => v.NInt? && Within(64, false, v.number)
    case OfI128 => v.NInt? && IsI128(v.number)
    case OfU128 => v.NInt? && IsU128(v.number)
    case OfBytes => v.NBytes?
    case OfString => v.NText? && IsUtf8(v.utf8)
    case OfSymbol => v.NText? && IsUtf8(v.utf8)
    case VecOf(element) => v.NList? && forall i | 0 <= i < |v.items| :: Typed(element, v.items[i])
  }

  function Encode(s: Schema, v: Native): Result<ScVal>
    requires Typed(s, v)
    decreases s, 0, 0
  {
    match s
    case OfBool => Ok(Bool(v.flag))
    case OfI32 => Ok(I32(v.number))
    case OfU32 => Ok(U32(v.number))
    case OfI64 => Ok(I64(v.number))
    case OfU64 => Ok(U64(v.number))
    case OfI128 => Ok(I128Val(v.number))
    case OfU128 => Ok(U128Val(v.number))
    case OfBytes => if |v.bytes| < TWO_32 then Ok(Bytes(v.bytes)) else Err(Xdr)
    case OfString => if |v.utf8| < TWO_32 then Ok(String(v.utf8)) else Err(Xdr)
    case OfSymbol => MakeSymbol(v.utf8)
    case VecOf(element) =>
      var encoded := EncodeAll(element, v.items);
      if encoded.Err? then Err(encoded.error) else VecVal(encoded.value)
  }

  /** `iter().map(encode).collect::<Result<Vec<_>>>()`: the first error wins. */
  function EncodeAll(s: Schema, vs: seq<Native>): (r: Result<seq<ScVal>>)
    requires forall i | 0 <= i < |vs| :: Typed(s, vs[i])
    ensures r.Ok? ==> |r.value| == |vs|
    decreases s, 1, |vs|
  {
    if vs == [] then Ok([])
    else
      var first := Encode(s, vs[0]);
      if first.Err? then Err(first.error)
      else
        var rest := EncodeAll(s, vs[1..]);
        if rest.Err? then rest else Ok([first.value] + rest.value)
  }

  function ToVecVal(x: ScVal): Result<seq<ScVal>> {
    match x
    case Vec(items) => Ok(items)
    case VecNone => Ok([])
    case _ => Err(Xdr)
  }

  function Decode(s: Schema, x: ScVal): Result<Native>
    decreases s, 0, 0
  {
    match s
    case OfBool => if x.Bool? then Ok(NBool(x.flag)) else Err(Xdr)
    case OfI32 => if x.I32? then Ok(NInt(x.i32)) else Err(Xdr)
    case OfU32 => if x.U32? then Ok(NInt(x.u32)) else Err(Xdr)
    case OfI64 => if x.I64? then Ok(NInt(x.i64)) else Err(Xdr)
    case OfU64 => if x.U64? then Ok(NInt(x.u64)) else Err(Xdr)
    case OfI128 => if x.I128? then Ok(NInt(Join(x.hi, x.lo))) else Err(Xdr)
    case OfU128 => if x.U128? then Ok(NInt(Join(x.hi, x.lo))) else Err(Xdr)
    case OfBytes => if x.Bytes? then Ok(NBytes(x.bytes)) else Err(Xdr)
    case OfString => if x.String? && IsUtf8(x.bytes) then Ok(NText(x.bytes)) else Err(Xdr)
    case OfSymbol => if x.Symbol? && IsUtf8(x.bytes) then Ok(NText(x.bytes)) else Err(Xdr)
    case VecOf(element) =>
      var items := ToVecVal(x);
      if items.Err? then Err(items.error)
      else
        var decoded := DecodeAll(element, items.value);
        if decoded.Err? then Err(decoded.error) else Ok(NList(decoded.value))
  }

  function DecodeAll(s: Schema, xs: seq<ScVal>): (r: Result<seq<Native>>)
    ensures r.Ok? ==> |r.value| == |xs|
    decreases s, 1, |xs|
  {
    if xs == [] then Ok([])
    else
      var first := Decode(s, xs[0]);
      if first.Err? then Err(first.error)
      else
        var rest := DecodeAll(s, xs[1..]);
        if rest.Err? then rest else Ok([first.value] + rest.value)
  }

  /** Decoding inverts encoding, for every schema and every value that encodes. */
  lemma {:induction false} DecodeInvertsEncode(s: Schema, v: Native)
    requires Typed(s, v) && Encode(s, v).Ok?
    ensures Decode(s, Encode(s, v).value) == Ok(v)
    decreases s, 0, 0
  {
    match s
    case OfI128 => I128ValSplits(v.number, I128Val(v.number).hi, I128Val(v.number).lo);
    case OfU128 => U128ValSplits(v.number, U128Val(v.number).hi, U128Val(v.number).lo);
    case VecOf(element) => DecodeAllInvertsEncodeAll(element, v.items);
    case _ =>
  }

  lemma {:induction false} DecodeAllInvertsEncodeAll(s: Schema, vs: seq<Native>)
    requires forall i | 0 <= i < |vs| :: Typed(s, vs[i])
    requires EncodeAll(s, vs).Ok?
    ensures DecodeAll(s, EncodeAll(s, vs).value) == Ok(vs)
    decreases s, 1, |vs|
  {
    if vs != [] {
      DecodeInvertsEncode(s, vs[0]);
      DecodeAllInvertsEncodeAll(s, vs[1..]);
      assert EncodeAll(s, vs).value[1..] == EncodeAll(s, vs[1..]).value;
      assert [vs[0]] + vs[1..] == vs;
    }
  }

  /** The value is within the length limits of the XDR types it turns into. */
  predicate Encodable(s: Schema, v: Native)
    requires Typed(s, v)
    decreases s
  {
    match s
    case OfBytes => |v.bytes| < TWO_32
    case OfString => |v.utf8| < TWO_32
    case OfSymbol => |v.utf8| <= SYMBOL_LIMIT
    case VecOf(element) => |v.items| < TWO_32 && forall i | 0 <= i < |v.items| :: Encodable(element, v.items[i])
    case _ => true
  }

  /** Encoding fails exactly when some length limit is exceeded somewhere inside. */
  lemma {:induction false} EncodesExactlyWithinLimits(s: Schema, v: Native)
    requires Typed(s, v)
    ensures Encode(s, v).Ok? <==> Encodable(s, v)
    decreases s, 0, 0
  {
    if s.VecOf? { EncodesAllWithinLimits(s.element, v.items); }
  }

  lemma {:induction false} EncodesAllWithinLimits(s: Schema, vs: seq<Native>)
    requires forall i | 0 <= i < |vs| :: Typed(s, vs[i])
    ensures EncodeAll(s, vs).Ok? <==> forall i | 0 <= i < |vs| :: Encodable(s, vs[i])
    decreases s, 1, |vs|
  {
    if vs != [] {
      EncodesExactlyWithinLimits(s, vs[0]);
      EncodesAllWithinLimits(s, vs[1..]);
      assert forall i | 1 <= i < |vs| :: vs[i] == vs[1..][i - 1];
    }
  }

  /** The value fits its XDR type: integer widths, byte lengths, element counts. */
  predicate XdrTyped(x: ScVal) {
    match x
    case U32(n) => Within(32, false, n)
    case I32(n) => Within(32, true, n)
    case U64(n) => Within(64, false, n)
    case I64(n) => Within(64, true, n)
    case U128(hi, lo) => IsU64(hi) && IsU64(lo)
    case I128(hi, lo) => IsI64(hi) && IsU64(lo)
    case Bytes(bytes) => |bytes| < TWO_32
    case String(bytes) => |bytes| < TWO_32
    case Symbol(bytes) => |bytes| <= SYMBOL_LIMIT
    case Vec(items) => |items| < TWO_32 && forall i | 0 <= i < |items| :: XdrTyped(items[i])
    case _ => true
  }

  /** The value has the shape of the schema, an absent vector standing for an empty one. */
  predicate Conforms(s: Schema, x: ScVal)
    decreases s
  {
    match s
    case OfBool => x.Bool?
    case OfI32 => x.I32?
    case OfU32 => x.U32?
    case OfI64 => x.I64?
    case OfU64 => x.U64?
    case OfI128 => x.I128?
    case OfU128 => x.U128?
    case OfBytes => x.Bytes?
    case OfString => x.String? && IsUtf8(x.bytes)
    case OfSymbol => x.Symbol? && IsUtf8(x.bytes)
    case VecOf(element) =>
      x.VecNone? || (x.Vec? && forall i | 0 <= i < |x.items| :: Conforms(element, x.items[i]))
  }

  /** Every absent vector replaced by an empty one. */
  function Normalize(x: ScVal): ScVal
    decreases x, 0
  {
    match x
    case VecNone => Vec([])
    case Vec(items) => Vec(NormalizeAll(items))
    case _ => x
  }

  function NormalizeAll(xs: seq<ScVal>): (ys: seq<ScVal>)
    ensures |ys| == |xs|
    decreases xs, 1
  {
    if xs == [] then [] else [Normalize(xs[0])] + NormalizeAll(xs[1..])
  }

  lemma PrimitiveEncodeInvertsDecode(s: Schema, x: ScVal)
    requires XdrTyped(x) && !s.VecOf?
    ensures Decode(s, x).Ok? <==> Conforms(s, x)
    ensures Decode(s, x).Ok? ==> Typed(s, Decode(s, x).value) && Encode(s, Decode(s, x).value) == Ok(x)
    ensures Decode(s, x).Ok? ==> Normalize(x) == x
  {
    match s
    case OfI128 => if x.I128? { I128ValSplits(Join(x.hi, x.lo), x.hi, x.lo); }
    case OfU128 => if x.U128? { U128ValSplits(Join(x.hi, x.lo), x.hi, x.lo); }
    case _ =>
  }

  /** Decoding succeeds exactly on the values that conform, and encoding the result gives the value back with every
      absent vector turned into an empty one. */
  lemma {:induction false} EncodeInvertsDecode(s: Schema, x: ScVal)
    requires XdrTyped(x)
    ensures Decode(s, x).Ok? <==> Conforms(s, x)
    ensures Decode(s, x).Ok? ==> Typed(s, Decode(s, x).value) && Encode(s, Decode(s, x).value) == Ok(Normalize(x))
    decreases s, 0, 0
  {
    if !s.VecOf? {
      PrimitiveEncodeInvertsDecode(s, x);
    } else if x.Vec? {
      EncodeAllInvertsDecodeAll(s.element, x.items);
    }
  }

  lemma ConformsFromHead(s: Schema, xs: seq<ScVal>)
    requires xs != []
    ensures (forall i | 0 <= i < |xs| :: Conforms(s, xs[i])) <==>
            Conforms(s, xs[0]) && forall i | 0 <= i < |xs[1..]| :: Conforms(s, xs[1..][i])
  {
    assert forall i | 1 <= i < |xs| :: xs[i] == xs[1..][i - 1];
  }

  lemma {:induction false} EncodeAllInvertsDecodeAll(s: Schema, xs: seq<ScVal>)
    requires forall i | 0 <= i < |xs| :: XdrTyped(xs[i])
    ensures DecodeAll(s, xs).Ok? <==> forall i | 0 <= i < |xs| :: Conforms(s, xs[i])
    ensures DecodeAll(s, xs).Ok? ==> forall i | 0 <= i < |xs| :: Typed(s, DecodeAll(s, xs).value[i])
    ensures DecodeAll(s, xs).Ok? ==> EncodeAll(s, DecodeAll(s, xs).value) == Ok(NormalizeAll(xs))
    decreases s, 1, |xs|
  {
    if xs != [] {
      EncodeInvertsDecode(s, xs[0]);
      EncodeAllInvertsDecodeAll(s, xs[1..]);
      ConformsFromHead(s, xs);
      if DecodeAll(s, xs).Ok? {
        assert DecodeAll(s, xs).value[1..] == DecodeAll(s, xs[1..]).value;
      }
    }
  }

  /** An empty vector decodes at every element type, and an absent one comes back as an empty one. */
  lemma EmptyVectorsAreUntyped(element: Schema)
    ensures Decode(VecOf(element), Vec([])) == Decode(VecOf(element), VecNone) == Ok(NList([]))
    ensures Encode(VecOf(element), NList([])) == Ok(Vec([])) && Vec([]) != VecNone
  {
  }

  lemma {:induction false} EncodeAllAt(s: Schema, vs: seq<Native>, i: nat)
    requires forall j | 0 <= j < |vs| :: Typed(s, vs[j])
    requires EncodeAll(s, vs).Ok? && i < |vs|
    ensures Encode(s, vs[i]) == Ok(EncodeAll(s, vs).value[i])
    decreases |vs|
  {
    if i > 0 {
      EncodeAllAt(s, vs[1..], i - 1);
      assert EncodeAll(s, vs).value[1..] == EncodeAll(s, vs[1..]).value;
    }
  }

  lemma {:induction false} DecodeAllAt(s: Schema, xs: seq<ScVal>, i: nat)
    requires DecodeAll(s, xs).Ok? && i < |xs|
    ensures Decode(s, xs[i]) == Ok(DecodeAll(s, xs).value[i])
    decreases |xs|
  {
    if i > 0 {
      DecodeAllAt(s, xs[1..], i - 1);
      assert DecodeAll(s, xs).value[1..] == DecodeAll(s, xs[1..]).value;
    }
  }

  /** Vectors keep their order: each element of the encoded vector encodes the item at its place, and each decoded
      item is the element at its place. */
  lemma ElementsKeepTheirPlaces(element: Schema, v: Native, x: ScVal)
    ensures Typed(VecOf(element), v) && Encode(VecOf(element), v).Ok? ==>
              var encoded := Encode(VecOf(element), v).value;
              && encoded.Vec? && |encoded.items| == |v.items|
              && forall i | 0 <= i < |v.items| :: Encode(element, v.items[i]) == Ok(encoded.items[i])
    ensures x.Vec? && Decode(VecOf(element), x).Ok? ==>
              var decoded := Decode(VecOf(element), x).value;
              && decoded.NList? && |decoded.items| == |x.items|
              && forall i | 0 <= i < |x.items| :: Decode(element, x.items[i]) == Ok(decoded.items[i])
  {
    if Typed(VecOf(element), v) && Encode(VecOf(element), v).Ok? {
      forall i | 0 <= i < |v.items| ensures Encode(element, v.items[i]) == Ok(EncodeAll(element, v.items).value[i]) {
        EncodeAllAt(element, v.items, i);
      }
    }
    if x.Vec? && Decode(VecOf(element), x).Ok? {
      forall i | 0 <= i < |x.items| ensures Decode(element, x.items[i]) == Ok(DecodeAll(element, x.items).value[i]) {
        DecodeAllAt(element, x.items, i);
      }
    }
  }
}
