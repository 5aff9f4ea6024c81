/** What each transaction bids for inclusion. */
module Fees {
  import opened Types

  const MIN_BASE_FEE: nat := 100

  predicate IsDigit(c: char) { '0' <= c <= '9' }

  predicate AllDigits(text: string) { forall i | 0 <= i < |text| :: IsDigit(text[i]) }

  function DecimalValue(digits: string): nat
    requires AllDigits(digits)
  {
    if digits == [] then 0
    else
      assert IsDigit(digits[|digits| - 1]);
      10 * DecimalValue(digits[..|digits| - 1]) + (digits[|digits| - 1] as int - '0' as int)
  }

  function WithoutPlus(text: string): string {
    if |text| > 0 && text[0] == '+' then text[1..] else text
  }

  /** `str::parse::<u32>`: an optional plus sign, at least one digit, nothing else, no overflow. */
  function ParseU32(text: string): Option<nat> {
    var digits := WithoutPlus(text);
    if |digits| > 0 && AllDigits(digits) && DecimalValue(digits) < TWO_32
    then Some(DecimalValue(digits))
    else None
  }

  /** The reply to `getFeeStats`: an RPC error, or the 90th percentile as text. */
  datatype FeeReply = FeeError | FeeP90(text: string)

  /** `recommended_inclusion_fee`. */
  function RecommendedInclusionFee(reply: FeeReply): Result<nat> {
    match reply
    case FeeError => Err(Rpc)
    case FeeP90(text) =>
      var p90 := ParseU32(text);
      if p90.None? then Err(Rpc) else Ok(Max(p90.value, MIN_BASE_FEE))
  }

  /** `recommended_inclusion_fee(..).unwrap_or(MIN_BASE_FEE)`, as deploy and invoke use it. */
  function InclusionFee(reply: FeeReply): nat {
    var fee := RecommendedInclusionFee(reply);
    if fee.Ok? then fee.value else MIN_BASE_FEE
  }

  function SaturatingAddU32(a: nat, b: nat): nat {
    if a + b < TWO_32 then a + b else TWO_32 - 1
  }

  /** `u32::try_from(resource_fee.max(0)).unwrap_or(u32::MAX)`, then a saturating add. */
  function RestoreFee(resourceFee: int): nat {
    var floored := Max(resourceFee, 0);
    var narrowed := if floored < TWO_32 then floored else TWO_32 - 1;
    SaturatingAddU32(MIN_BASE_FEE, narrowed)
  }

  lemma RestoreFeeExact(resourceFee: int)
    ensures RestoreFee(resourceFee) == Min(MIN_BASE_FEE + Max(resourceFee, 0), TWO_32 - 1)
    ensures MIN_BASE_FEE <= RestoreFee(resourceFee) < TWO_32
  {
  }

  /** The bid is a u32 of at least 100 whatever the RPC answers; above 100 it is exactly the number the text spells. */
  lemma InclusionFeeExact(reply: FeeReply)
    ensures MIN_BASE_FEE <= InclusionFee(reply) < TWO_32
    ensures InclusionFee(reply) > MIN_BASE_FEE <==>
              reply.FeeP90? && ParseU32(reply.text).Some? && ParseU32(reply.text).value > MIN_BASE_FEE
    ensures InclusionFee(reply) > MIN_BASE_FEE ==> Some(InclusionFee(reply)) == ParseU32(reply.text)
  {
  }

  /** A number in decimal notation, as the fee statistics report it. */
  function Decimal(n: nat): (text: string)
    ensures |text| > 0
  {
    var last := [(n % 10 + '0' as int) as char];
    if n < 10 then last else Decimal(n / 10) + last
  }

  lemma {:induction false} DecimalReadsBack(n: nat)
    ensures AllDigits(Decimal(n))
    ensures DecimalValue(Decimal(n)) == n
  {
    var text := Decimal(n);
    var init, last := text[..|text| - 1], (n % 10 + '0' as int) as char;
    assert text[|text| - 1] == last && last as int == n % 10 + '0' as int;
    if n < 10 {
      assert init == [];
    } else {
      DecimalReadsBack(n / 10);
      assert init == Decimal(n / 10);
    }
  }

  /** For a reported percentile `p90`, with or without a plus sign: the fee is the larger of it and the floor, and
      a number too large for a u32 is an error, for which deploy and invoke bid the floor. */
  lemma ReportedFee(p90: nat, plus: bool)
    ensures var reply := FeeP90((if plus then "+" else "") + Decimal(p90));
            && RecommendedInclusionFee(reply) == (if p90 < TWO_32 then Ok(Max(p90, 100)) else Err(Rpc))
            && InclusionFee(reply) == if p90 < TWO_32 then Max(p90, 100) else 100
  {
    DecimalReadsBack(p90);
    assert Decimal(p90)[0] != '+';
    var text := (if plus then "+" else "") + Decimal(p90);
    assert (if text[0] == '+' then text[1..] else text) == Decimal(p90);
  }

  function Zeros(n: nat): (text: string)
    ensures |text| == n
  {
    if n == 0 then "" else Zeros(n - 1) + "0"
  }

  /** A number written with a plus sign or not, and with leading zeros. */
  function Spelling(plus: bool, zeros: nat, n: nat): string {
    (if plus then "+" else "") + Zeros(zeros) + Decimal(n)
  }

  lemma {:induction false} ZerosAreZero(zeros: nat)
    ensures AllDigits(Zeros(zeros)) && DecimalValue(Zeros(zeros)) == 0
  {
    if zeros > 0 {
      ZerosAreZero(zeros - 1);
      assert Zeros(zeros)[..zeros - 1] == Zeros(zeros - 1);
    }
  }

  lemma {:induction false} ZerosCountNothing(zeros: nat, n: nat)
    ensures AllDigits(Zeros(zeros) + Decimal(n)) && DecimalValue(Zeros(zeros) + Decimal(n)) == n
    decreases n
  {
    DecimalReadsBack(n);
    ZerosAreZero(zeros);
    var digits := Zeros(zeros) + Decimal(n);
    var init := digits[..|digits| - 1];
    assert digits[|digits| - 1] == Decimal(n)[|Decimal(n)| - 1];
    if n < 10 {
      assert init == Zeros(zeros);
    } else {
      ZerosCountNothing(zeros, n / 10);
      assert init == Zeros(zeros) + Decimal(n / 10);
    }
  }

  /** Every string of digits is some zeros and the decimal notation of its value. */
  lemma {:induction false} DigitsSpell(digits: string) returns (zeros: nat)
    requires digits != [] && AllDigits(digits)
    ensures digits == Zeros(zeros) + Decimal(DecimalValue(digits))
  {
    var init, last := digits[..|digits| - 1], digits[|digits| - 1];
    assert IsDigit(last);
    var v := DecimalValue(digits);
    assert v == 10 * DecimalValue(init) + (last as int - '0' as int);
    assert (v % 10 + '0' as int) as char == last;
    assert digits == init + [last];
    if init == [] {
      zeros := 0;
    } else {
      zeros := DigitsSpell(init);
      if v < 10 {
        assert init == Zeros(zeros) + "0";
        zeros := zeros + 1;
      } else {
        assert Decimal(v) == Decimal(v / 10) + [last];
      }
    }
  }

  lemma SpellingParses(plus: bool, zeros: nat, n: nat)
    requires n < TWO_32
    ensures ParseU32(Spelling(plus, zeros, n)) == Some(n)
  {
    var text, digits := Spelling(plus, zeros, n), Zeros(zeros) + Decimal(n);
    ZerosCountNothing(zeros, n);
    assert IsDigit(digits[0]) && digits[0] != '+';
    assert text == (if plus then "+" else "") + digits;
    assert WithoutPlus(text) == digits by {
      if plus { assert text[1..] == digits; }
    }
  }

  lemma ParsedIsSpelled(text: string, n: nat) returns (plus: bool, zeros: nat)
    requires ParseU32(text) == Some(n)
    ensures text == Spelling(plus, zeros, n)
  {
    var digits := WithoutPlus(text);
    plus := digits != text;
    zeros := DigitsSpell(digits);
    assert text == (if plus then "+" else "") + digits;
  }

  /** A percentile is read exactly if the text spells a u32, as that number. */
  lemma ParseU32Exact(text: string, n: nat)
    ensures ParseU32(text) == Some(n) <==>
            n < TWO_32 && exists plus: bool, zeros: nat :: text == Spelling(plus, zeros, n)
  {
    if ParseU32(text) == Some(n) {
      var plus, zeros := ParsedIsSpelled(text, n);
    } else if n < TWO_32 && exists plus: bool, zeros: nat :: text == Spelling(plus, zeros, n) {
      var plus: bool, zeros: nat :| text == Spelling(plus, zeros, n);
      SpellingParses(plus, zeros, n);
      assert false;
    }
  }
}
