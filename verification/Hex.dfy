/** The hex codec of wasm hashes: base16, section 8 of RFC 4648, either case accepted, lower case written. */
module Hex {
  import opened Types

  const HASH_LENGTH: nat := 32

  function DigitOf(n: int): char
    requires 0 <= n < 16
  {
    if n < 10 then '0' + (n as char) else 'a' + ((n - 10) as char)
  }

  predicate IsHexDigit(c: char) { '0' <= c <= '9' || 'a' <= c <= 'f' || 'A' <= c <= 'F' }

  function ValueOf(c: char): (n: int)
    requires IsHexDigit(c)
    ensures 0 <= n < 16
  {
    if '0' <= c <= '9' then c as int - '0' as int
    else if 'a' <= c <= 'f' then c as int - 'a' as int + 10
    else c as int - 'A' as int + 10
  }

  /** `hex::encode`. */
  function Encode(bytes: seq<byte>): (text: string)
    ensures |text| == 2 * |bytes|
  {
    if bytes == [] then []
    else [DigitOf(bytes[0] / 16), DigitOf(bytes[0] % 16)] + Encode(bytes[1..])
  }

  /** `hex::decode`: two digits a byte; an odd length or any other character is an error. */
  function Decode(text: string): (r: Result<seq<byte>>) {
    if text == [] then Ok([])
    else if |text| == 1 || !IsHexDigit(text[0]) || !IsHexDigit(text[1]) then Err(Xdr)
    else
      var rest := Decode(text[2..]);
      if rest.Err? then rest else Ok([16 * ValueOf(text[0]) + ValueOf(text[1])] + rest.value)
  }

  function WasmHashToHex(hash: seq<byte>): string { Encode(hash) }

  /** `wasm_hash_from_hex`. */
  function WasmHashFromHex(text: string): Result<seq<byte>> {
    var bytes := Decode(text);
    if bytes.Ok? && |bytes.value| != HASH_LENGTH then Err(Xdr) else bytes
  }

  function LowerDigit(c: char): char {
    if 'A' <= c <= 'F' then (c as int - 'A' as int + 'a' as int) as char else c
  }

  function Lower(text: string): (r: string)
    ensures |r| == |text|
  {
    if text == [] then [] else [LowerDigit(text[0])] + Lower(text[1..])
  }

  predicate AllHex(text: string) { forall i | 0 <= i < |text| :: IsHexDigit(text[i]) }

  lemma DigitRoundTrip(c: char)
    requires IsHexDigit(c)
    ensures DigitOf(ValueOf(c)) == LowerDigit(c)
  {
    if '0' <= c <= '9' {
      assert DigitOf(ValueOf(c)) as int == c as int;
    } else if 'a' <= c <= 'f' {
      assert DigitOf(ValueOf(c)) as int == c as int;
    } else {
      assert DigitOf(ValueOf(c)) as int == c as int - 'A' as int + 'a' as int;
    }
  }

  lemma ValueRoundTrip(n: int)
    requires 0 <= n < 16
    ensures IsHexDigit(DigitOf(n)) && ValueOf(DigitOf(n)) == n
  {
    if n < 10 {
      assert DigitOf(n) as int == '0' as int + n;
    } else {
      assert DigitOf(n) as int == 'a' as int + n - 10;
    }
  }

  lemma AllHexTail(text: string)
    requires |text| >= 2
    ensures AllHex(text) <==> IsHexDigit(text[0]) && IsHexDigit(text[1]) && AllHex(text[2..])
  {
    assert forall i | 2 <= i < |text| :: text[i] == text[2..][i - 2];
  }

  lemma LowerPair(text: string)
    requires |text| >= 2
    ensures Lower(text) == [LowerDigit(text[0]), LowerDigit(text[1])] + Lower(text[2..])
  {
    assert text[1..][1..] == text[2..];
  }

  lemma EncodePair(high: int, low: int, rest: seq<byte>)
    requires 0 <= high < 16 && 0 <= low < 16
    ensures Encode([16 * high + low] + rest) == [DigitOf(high), DigitOf(low)] + Encode(rest)
  {
    assert (16 * high + low) / 16 == high && (16 * high + low) % 16 == low;
    assert ([16 * high + low] + rest)[1..] == rest;
  }

  lemma {:induction false} DecodesExactly(text: string)
    ensures Decode(text).Ok? <==> |text| % 2 == 0 && AllHex(text)
  {
    if |text| >= 2 {
      DecodesExactly(text[2..]);
      AllHexTail(text);
    }
  }

  lemma {:induction false} EncodeDecode(text: string)
    requires Decode(text).Ok?
    ensures 2 * |Decode(text).value| == |text| && Encode(Decode(text).value) == Lower(text)
  {
    if |text| >= 2 {
      EncodeDecode(text[2..]);
      DigitRoundTrip(text[0]);
      DigitRoundTrip(text[1]);
      LowerPair(text);
      EncodePair(ValueOf(text[0]), ValueOf(text[1]), Decode(text[2..]).value);
    }
  }

  /** Decoding succeeds exactly on an even number of hex digits, and encoding the result gives the text in
      lower case. */
  lemma DecodeExact(text: string)
    ensures Decode(text).Ok? <==> |text| % 2 == 0 && AllHex(text)
    ensures Decode(text).Ok? ==> 2 * |Decode(text).value| == |text| && Encode(Decode(text).value) == Lower(text)
  {
    DecodesExactly(text);
    if Decode(text).Ok? { EncodeDecode(text); }
  }

  lemma {:induction false} DecodeEncode(bytes: seq<byte>)
    ensures Decode(Encode(bytes)) == Ok(bytes)
  {
    if bytes != [] {
      DecodeEncode(bytes[1..]);
      ValueRoundTrip(bytes[0] / 16);
      ValueRoundTrip(bytes[0] % 16);
      assert Encode(bytes)[2..] == Encode(bytes[1..]);
      assert [bytes[0]] + bytes[1..] == bytes;
    }
  }

  /** A text names the hash `h` exactly when it is 64 hex digits, of either case, that spell `h`; so writing a
      32-byte hash and reading it back is the identity, and every other text is refused. */
  lemma WasmHashFromHexExact(text: string, hash: seq<byte>)
    ensures WasmHashFromHex(text) == Ok(hash) <==>
              |text| == 64 && AllHex(text) && WasmHashToHex(hash) == Lower(text)
    ensures |hash| == 32 ==> WasmHashFromHex(WasmHashToHex(hash)) == Ok(hash)
    ensures WasmHashFromHex(text).Err? <==> |text| != 64 || !AllHex(text)
  {
    DecodeExact(text);
    DecodeEncode(hash);
    if |text| == 64 && AllHex(text) && WasmHashToHex(hash) == Lower(text) {
      DecodeEncode(Decode(text).value);
    }
  }

  const LOWER_DIGITS: string := "0123456789abcdef"
  const UPPER_DIGITS: string := "0123456789ABCDEF"

  /** Digit by digit: the digits are the sixteen of base16 in either case, with the values of their places, and
      lower case changes only the case. */
  lemma DigitsExact(n: int, c: char)
    requires 0 <= n < 16
    ensures DigitOf(n) == LOWER_DIGITS[n]
    ensures IsHexDigit(LOWER_DIGITS[n]) && ValueOf(LOWER_DIGITS[n]) == n
    ensures IsHexDigit(UPPER_DIGITS[n]) && ValueOf(UPPER_DIGITS[n]) == n
    ensures LowerDigit(LOWER_DIGITS[n]) == LowerDigit(UPPER_DIGITS[n]) == LOWER_DIGITS[n]
    ensures IsHexDigit(c) <==> c in LOWER_DIGITS || c in UPPER_DIGITS
  {
    if IsHexDigit(c) {
      assert c == LOWER_DIGITS[ValueOf(c)] || c == UPPER_DIGITS[ValueOf(c)];
    }
  }

  /** A byte is written as its high digit, then its low one. */
  lemma {:induction false} EncodeAt(bytes: seq<byte>, i: nat)
    requires i < |bytes|
    ensures Encode(bytes)[2 * i] == LOWER_DIGITS[bytes[i] / 16]
    ensures Encode(bytes)[2 * i + 1] == LOWER_DIGITS[bytes[i] % 16]
    decreases |bytes|
  {
    if i == 0 {
      DigitsExact(bytes[0] / 16, '0');
      DigitsExact(bytes[0] % 16, '0');
    } else {
      EncodeAt(bytes[1..], i - 1);
      assert Encode(bytes)[2..] == Encode(bytes[1..]);
    }
  }

  lemma {:induction false} LowerAt(text: string, i: nat)
    requires i < |text|
    ensures Lower(text)[i] == LowerDigit(text[i])
    decreases |text|
  {
    if i > 0 { LowerAt(text[1..], i - 1); }
  }
}
