/** The 128-bit codec: big-endian bytes, split into two 64-bit halves (hyper integers are section 4.5 of RFC 4506). */
module Int128 {
  import opened Types
  import opened Keys

  const TWO_127: int := 0x8000_0000_0000_0000_0000_0000_0000_0000
  const TWO_128: int := 0x1_0000_0000_0000_0000_0000_0000_0000_0000

  function Pow256(n: nat): nat { if n == 0 then 1 else 256 * Pow256(n - 1) }

  /** The number big-endian bytes spell. */
  function FromBe(bytes: seq<byte>): nat {
    if bytes == [] then 0 else FromBe(bytes[..|bytes| - 1]) * 256 + bytes[|bytes| - 1]
  }

  /** The low `n` bytes of a number, most significant first. */
  function ToBe(v: nat, n: nat): (bytes: seq<byte>)
    ensures |bytes| == n
  {
    if n == 0 then [] else ToBe(v / 256, n - 1) + [v % 256]
  }

  lemma {:induction false} FromToBe(v: nat, n: nat)
    requires v < Pow256(n)
    ensures FromBe(ToBe(v, n)) == v
  {
    if n > 0 {
      FromToBe(v / 256, n - 1);
      assert ToBe(v, n)[..n - 1] == ToBe(v / 256, n - 1);
    }
  }

  lemma {:induction false} ToFromBe(bytes: seq<byte>)
    ensures FromBe(bytes) < Pow256(|bytes|)
    ensures ToBe(FromBe(bytes), |bytes|) == bytes
  {
    if bytes != [] {
      ToFromBe(bytes[..|bytes| - 1]);
      assert bytes[..|bytes| - 1] + [bytes[|bytes| - 1]] == bytes;
    }
  }

  lemma {:induction false} FromBeConcat(a: seq<byte>, b: seq<byte>)
    ensures FromBe(a + b) == FromBe(a) * Pow256(|b|) + FromBe(b)
  {
    if b == [] {
      assert a + b == a;
    } else {
      var init, last := b[..|b| - 1], b[|b| - 1];
      FromBeConcat(a, init);
      assert (a + b)[..|a + b| - 1] == a + init;
      assert FromBe(a) * Pow256(|init|) * 256 == FromBe(a) * Pow256(|b|);
    }
  }

  lemma Pow256Values()
    ensures Pow256(8) == TWO_64 && Pow256(16) == TWO_128
  {
    assert Pow256(4) == 0x1_0000_0000;
    assert Pow256(8) == 0x1_0000_0000_0000_0000;
    assert Pow256(12) == 0x1_0000_0000_0000_0000_0000_0000;
  }

  /** Two's complement, read from and written to the unsigned number of the same bits. */
  function Signed(u: nat, modulus: nat): int { if 2 * u < modulus then u else u - modulus }

  function Unsigned(v: int, modulus: nat): nat
    requires v + modulus >= 0
  {
    if v < 0 then v + modulus else v
  }

  predicate IsI64(v: int) { -TWO_63 <= v < TWO_63 }

  predicate IsU64(v: int) { 0 <= v < TWO_64 }

  predicate IsI128(v: int) { -TWO_127 <= v < TWO_127 }

  predicate IsU128(v: int) { 0 <= v < TWO_128 }

  /** `i128_val`. */
  function I128Val(v: int): ScVal
    requires IsI128(v)
  {
    var raw := ToBe(Unsigned(v, TWO_128), 16);
    I128(Signed(FromBe(raw[0..8]), TWO_64), FromBe(raw[8..16]))
  }

  /** `u128_val`. */
  function U128Val(v: int): ScVal
    requires IsU128(v)
  {
    var raw := ToBe(v, 16);
    U128(FromBe(raw[0..8]), FromBe(raw[8..16]))
  }

  lemma SplitHalves(v: nat)
    requires v < TWO_128
    ensures var raw := ToBe(v, 16); var hi, lo := FromBe(raw[0..8]), FromBe(raw[8..16]);
            hi < TWO_64 && lo < TWO_64 && v == hi * TWO_64 + lo
  {
    Pow256Values();
    var raw := ToBe(v, 16);
    FromToBe(v, 16);
    FromBeConcat(raw[0..8], raw[8..16]);
    assert raw[0..8] + raw[8..16] == raw;
    ToFromBe(raw[0..8]);
    ToFromBe(raw[8..16]);
  }

  /** Pairs of halves are ordered as the numbers they make up. */
  lemma HalvesOrdered(hi: int, lo: int, hi': int, lo': int)
    requires IsU64(lo) && IsU64(lo')
    ensures hi * TWO_64 + lo < hi' * TWO_64 + lo' <==> hi < hi' || (hi == hi' && lo < lo')
  {
  }

  /** The unsigned split gives the only halves in range that make up the number. */
  lemma U128ValSplits(v: int, hi: int, lo: int)
    requires IsU128(v)
    ensures U128Val(v) == U128(hi, lo) <==> IsU64(hi) && IsU64(lo) && v == hi * TWO_64 + lo
  {
    SplitHalves(v);
  }

  /** The signed split gives the only halves in range that make up the number, the high one signed. */
  lemma I128ValSplits(v: int, hi: int, lo: int)
    requires IsI128(v)
    ensures I128Val(v) == I128(hi, lo) <==> IsI64(hi) && IsU64(lo) && v == hi * TWO_64 + lo
  {
    SplitHalves(Unsigned(v, TWO_128));
  }

  /** Numeric order is the lexicographic order of the halves. */
  lemma I128Order(v: int, w: int)
    requires IsI128(v) && IsI128(w)
    ensures v < w <==>
            I128Val(v).hi < I128Val(w).hi || (I128Val(v).hi == I128Val(w).hi && I128Val(v).lo < I128Val(w).lo)
  {
    I128ValSplits(v, I128Val(v).hi, I128Val(v).lo);
    I128ValSplits(w, I128Val(w).hi, I128Val(w).lo);
    HalvesOrdered(I128Val(v).hi, I128Val(v).lo, I128Val(w).hi, I128Val(w).lo);
  }

  lemma U128Order(v: int, w: int)
    requires IsU128(v) && IsU128(w)
    ensures v < w <==>
            U128Val(v).hi < U128Val(w).hi || (U128Val(v).hi == U128Val(w).hi && U128Val(v).lo < U128Val(w).lo)
  {
    U128ValSplits(v, U128Val(v).hi, U128Val(v).lo);
    U128ValSplits(w, U128Val(w).hi, U128Val(w).lo);
    HalvesOrdered(U128Val(v).hi, U128Val(v).lo, U128Val(w).hi, U128Val(w).lo);
  }

  /** The 16-byte buffer both extractors fill, half by half. */
  method JoinHalves(hi: seq<byte>, lo: seq<byte>) returns (raw: array<byte>)
    requires |hi| == 8 && |lo| == 8
    ensures fresh(raw) && raw[..] == hi + lo
  {
    raw := new byte[16](_ => 0);
    for i := 0 to 8
      invariant raw[..i] == hi[..i]
    {
      raw[i] := hi[i];
    }
    for i := 0 to 8
      invariant raw[..8] == hi && raw[8..8 + i] == lo[..i]
    {
      raw[8 + i] := lo[i];
    }
    assert raw[..] == raw[..8] + raw[8..16];
  }

  /** The number two halves stand for. */
  function Join(hi: int, lo: int): int { hi * TWO_64 + lo }

  lemma SignedJoin(hi: int, lo: int)
    requires IsI64(hi) && IsU64(lo)
    ensures Unsigned(hi, TWO_64) < TWO_64
    ensures IsI128(Join(hi, lo)) && Signed(Unsigned(hi, TWO_64) * TWO_64 + lo, TWO_128) == Join(hi, lo)
  {
  }

  lemma JoinedSigned(hi: int, lo: int)
    requires IsI64(hi) && IsU64(lo)
    ensures var v := Signed(FromBe(ToBe(Unsigned(hi, TWO_64), 8) + ToBe(lo, 8)), TWO_128);
            IsI128(v) && v == Join(hi, lo)
  {
    SignedJoin(hi, lo);
    Pow256Values();
    var high := ToBe(Unsigned(hi, TWO_64), 8);
    FromBeConcat(high, ToBe(lo, 8));
    FromToBe(Unsigned(hi, TWO_64), 8);
    FromToBe(lo, 8);
    assert FromBe(high + ToBe(lo, 8)) == Unsigned(hi, TWO_64) * TWO_64 + lo;
  }

  /** `to_i128`: decodes exactly the I128 variant, and gives back the number whose encoding the value is. */
  method ToI128(value: ScVal) returns (r: Result<int>)
    requires value.I128? ==> IsI64(value.hi) && IsU64(value.lo)
    ensures value.I128? ==> r.Ok? && IsI128(r.value) && r.value == Join(value.hi, value.lo)
    ensures value.I128? ==> I128Val(r.value) == value
    ensures !value.I128? ==> r == Err(Xdr)
  {
    match value {
      case I128(hi, lo) =>
        var hiBytes, loBytes := ToBe(Unsigned(hi, TWO_64), 8), ToBe(lo, 8);
        var raw := JoinHalves(hiBytes, loBytes);
        r := Ok(Signed(FromBe(raw[..]), TWO_128));
        JoinedSigned(hi, lo);
        I128ValSplits(r.value, hi, lo);
      case _ => r := Err(Xdr);
    }
  }

  /** `to_u128`, likewise. */
  method ToU128(value: ScVal) returns (r: Result<int>)
    requires value.U128? ==> IsU64(value.hi) && IsU64(value.lo)
    ensures value.U128? ==> r.Ok? && IsU128(r.value) && r.value == Join(value.hi, value.lo) && U128Val(r.value) == value
    ensures !value.U128? ==> r == Err(Xdr)
  {
    match value {
      case U128(hi, lo) =>
        var hiBytes, loBytes := ToBe(hi, 8), ToBe(lo, 8);
        var raw := JoinHalves(hiBytes, loBytes);
        r := Ok(FromBe(raw[..]));
        Pow256Values();
        FromBeConcat(hiBytes, loBytes);
        FromToBe(hi, 8);
        FromToBe(lo, 8);
        U128ValSplits(r.value, hi, lo);
      case _ => r := Err(Xdr);
    }
  }
}
