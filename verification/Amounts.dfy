/**
 `parseUiAmountToAtomic` (scripts/propose-smart-account-transaction.ts): exact
 conversion of a decimal amount to atomic units.
 */
module Amounts {
  import opened Prelude
  import opened Decimals

  datatype AmountError = InvalidAmount | TooManyDecimals

  /** The position of the first dot, or the length of the text. */
  function DotAt(s: string): (i: nat)
    ensures i <= |s| && (i < |s| ==> s[i] == '.') && forall j :: 0 <= j < i ==> s[j] != '.'
  {
    if s == [] || s[0] == '.' then 0 else 1 + DotAt(s[1..])
  }

  lemma DotIs(s: string, i: nat)
    requires i <= |s| && (i < |s| ==> s[i] == '.') && forall j :: 0 <= j < i ==> s[j] != '.'
    ensures DotAt(s) == i
  {
  }

  function Whole(s: string): string {
    s[..DotAt(s)]
  }

  function Fraction(s: string): string {
    if DotAt(s) == |s| then "" else s[DotAt(s) + 1..]
  }

  /** One or more digits, then optionally a dot and one or more digits. */
  predicate IsAmount(s: string) {
    && Whole(s) != "" && AllDigits(Whole(s))
    && (DotAt(s) < |s| ==> Fraction(s) != "" && AllDigits(Fraction(s)))
  }

  function ZeroDigits(n: nat): (z: string)
    ensures |z| == n && AllDigits(z)
  {
    seq(n, _ => '0')
  }

  function PadEnd(s: string, length: int): string {
    if |s| >= length then s else s + ZeroDigits(length - |s|)
  }

  /** `BigInt` of the concatenated digits; a negative `decimals` leaves no room for any fraction. */
  function ParseUiAmount(value: string, decimals: int): Result<nat, AmountError> {
    if !IsAmount(value) then Err(InvalidAmount)
    else if |Fraction(value)| > decimals then Err(TooManyDecimals)
    else Ok(Value(Whole(value) + PadEnd(Fraction(value), decimals)))
  }

  /** n * 10^k */
  function Shift(n: nat, k: nat): nat {
    if k == 0 then n else 10 * Shift(n, k - 1)
  }

  lemma {:induction false} ShiftSum(m: nat, n: nat, k: nat)
    ensures Shift(m + n, k) == Shift(m, k) + Shift(n, k)
    ensures Shift(10 * n, k) == 10 * Shift(n, k)
  {
    if k > 0 {
      ShiftSum(m, n, k - 1);
    }
  }

  /** A text denotes its front shifted by the length of its back, plus its back. */
  lemma {:induction false} ValueOfJoin(a: string, b: string)
    requires AllDigits(a) && AllDigits(b)
    ensures AllDigits(a + b) && Value(a + b) == Shift(Value(a), |b|) + Value(b)
    decreases |b|
  {
    if b == "" {
      assert a + b == a;
    } else {
      ValueOfJoin(a, b[..|b| - 1]);
      assert (a + b)[..|a + b| - 1] == a + b[..|b| - 1];
    }
  }

  lemma {:induction false} ZerosShift(s: string, n: nat)
    requires AllDigits(s)
    ensures AllDigits(s + ZeroDigits(n)) && Value(s + ZeroDigits(n)) == Shift(Value(s), n)
  {
    if n == 0 {
      assert s + ZeroDigits(0) == s;
    } else {
      assert (s + ZeroDigits(n))[..|s| + n - 1] == s + ZeroDigits(n - 1);
      ZerosShift(s, n - 1);
    }
  }

  // ------------------------------------------------------------------
  // Main results
  // ------------------------------------------------------------------

  /** The text is a non-empty run of digits, or two of them with a dot between. */
  predicate Plain(s: string, whole: string) {
    s == whole && whole != "" && AllDigits(whole)
  }

  predicate Dotted(s: string, whole: string, fraction: string) {
    && s == whole + "." + fraction && whole != "" && fraction != ""
    && AllDigits(whole) && AllDigits(fraction)
  }

  ghost predicate Matches(s: string) {
    Plain(s, s) || exists whole, fraction :: Dotted(s, whole, fraction)
  }

  /**
   Which texts are rejected, and how: those that are not one run of digits or
   two with a dot between, first; then those with more digits behind the dot
   than there are decimals.
   */
  lemma ParseFailsExactly(value: string, decimals: int)
    ensures ParseUiAmount(value, decimals) == Err(InvalidAmount) <==> !Matches(value)
    ensures ParseUiAmount(value, decimals) == Err(TooManyDecimals) <==>
            || (Plain(value, value) && decimals < 0)
            || exists whole, fraction :: Dotted(value, whole, fraction) && |fraction| > decimals
  {
    if Plain(value, value) {
      DottedParts(value, "");
      DotIs(value, |value|);
    }
    forall whole, fraction | Dotted(value, whole, fraction)
      ensures IsAmount(value) && Fraction(value) == fraction
    {
      DottedParts(whole, fraction);
      AmountFromParts(whole, fraction);
    }
    if IsAmount(value) {
      if DotAt(value) < |value| {
        Dissect(value);
        assert Dotted(value, Whole(value), Fraction(value));
      } else {
        assert Plain(value, value);
      }
    }
  }

  /** Accepted exactly when the text is an amount whose fraction fits; then w.f gives w*10^d + f*10^(d-|f|). */
  lemma ParseIsExact(value: string, decimals: int)
    ensures ParseUiAmount(value, decimals).Ok? <==> IsAmount(value) && |Fraction(value)| <= decimals
    ensures ParseUiAmount(value, decimals).Ok? ==>
              ParseUiAmount(value, decimals).value
              == Shift(Value(Whole(value)), decimals) + Shift(Value(Fraction(value)), decimals - |Fraction(value)|)
  {
    if ParseUiAmount(value, decimals).Ok? {
      var padded := PadEnd(Fraction(value), decimals);
      assert padded == Fraction(value) + ZeroDigits(decimals - |Fraction(value)|);
      ZerosShift(Fraction(value), decimals - |Fraction(value)|);
      ValueOfJoin(Whole(value), padded);
    }
  }

  /** x * 10^k and x / 10^k on rationals. */
  ghost function ShiftUp(x: real, k: nat): real {
    if k == 0 then x else 10.0 * ShiftUp(x, k - 1)
  }

  ghost function ShiftDown(x: real, k: nat): real {
    if k == 0 then x else ShiftDown(x, k - 1) / 10.0
  }

  /** The rational number w + f / 10^|f| that the text denotes. */
  ghost function AmountOf(value: string): real
    requires IsAmount(value)
  {
    Value(Whole(value)) as real + ShiftDown(Value(Fraction(value)) as real, |Fraction(value)|)
  }

  lemma {:induction false} ShiftUpLaws(x: real, y: real, k: nat)
    ensures ShiftUp(x + y, k) == ShiftUp(x, k) + ShiftUp(y, k)
    ensures ShiftUp(x / 10.0, k + 1) == ShiftUp(x, k)
    ensures x <= y <==> ShiftUp(x, k) <= ShiftUp(y, k)
    ensures x == y <==> ShiftUp(x, k) == ShiftUp(y, k)
  {
    if k > 0 {
      ShiftUpLaws(x, y, k - 1);
    }
  }

  lemma {:induction false} ShiftUpOfNat(n: nat, k: nat)
    ensures ShiftUp(n as real, k) == Shift(n, k) as real
  {
    if k > 0 {
      ShiftUpOfNat(n, k - 1);
    }
  }

  lemma {:induction false} ShiftDownThenUp(x: real, down: nat, up: nat)
    requires down <= up
    ensures ShiftUp(ShiftDown(x, down), up) == ShiftUp(x, up - down)
  {
    if down > 0 {
      ShiftUpLaws(ShiftDown(x, down - 1), 0.0, up - 1);
      ShiftDownThenUp(x, down - 1, up - 1);
    }
  }

  /** No rounding: the result is the denoted number times 10^d. */
  lemma ParseScales(value: string, decimals: int)
    requires ParseUiAmount(value, decimals).Ok?
    ensures ParseUiAmount(value, decimals).value as real == ShiftUp(AmountOf(value), decimals)
  {
    ParseIsExact(value, decimals);
    var w, f, digits := Value(Whole(value)), Value(Fraction(value)), |Fraction(value)|;
    ShiftUpLaws(w as real, ShiftDown(f as real, digits), decimals);
    ShiftDownThenUp(f as real, digits, decimals);
    ShiftUpOfNat(w, decimals);
    ShiftUpOfNat(f, decimals - digits);
  }

  /** So the results compare exactly as the amounts do: monotone, and blind to how an amount is written. */
  lemma ParsePreservesOrder(a: string, b: string, decimals: int)
    requires ParseUiAmount(a, decimals).Ok? && ParseUiAmount(b, decimals).Ok?
    ensures ParseUiAmount(a, decimals).value <= ParseUiAmount(b, decimals).value <==> AmountOf(a) <= AmountOf(b)
    ensures ParseUiAmount(a, decimals).value == ParseUiAmount(b, decimals).value <==> AmountOf(a) == AmountOf(b)
  {
    ParseScales(a, decimals);
    ParseScales(b, decimals);
    ShiftUpLaws(AmountOf(a), AmountOf(b), decimals);
  }

  lemma DottedParts(whole: string, fraction: string)
    requires AllDigits(whole)
    ensures Whole(whole + "." + fraction) == whole && Fraction(whole + "." + fraction) == fraction
    ensures Whole(whole) == whole && Fraction(whole) == ""
  {
    DotIs(whole, |whole|);
    DotIs(whole + "." + fraction, |whole|);
  }

  lemma Dissect(value: string)
    requires DotAt(value) < |value|
    ensures value == Whole(value) + "." + Fraction(value)
  {
    SplitAt(value, DotAt(value));
  }

  lemma SplitAt(s: string, i: nat)
    requires i < |s|
    ensures s == s[..i] + [s[i]] + s[i + 1..]
  {
  }

  lemma Concat(a: string, b: string, c: string)
    ensures a + (b + c) == a + b + c
  {
  }

  lemma Regroup(whole: string, fraction: string, more: string)
    ensures (whole + "." + fraction) + more == whole + "." + (fraction + more)
  {
    Concat(whole + ".", fraction, more);
  }

  lemma DigitsJoin(a: string, b: string)
    requires AllDigits(a) && AllDigits(b)
    ensures AllDigits(a + b)
  {
  }

  /** Zeros behind a fraction belong to the fraction. */
  lemma WithZeros(value: string, zeros: nat)
    requires IsAmount(value) && DotAt(value) < |value|
    ensures var longer := value + ZeroDigits(zeros);
      IsAmount(longer) && Whole(longer) == Whole(value) && Fraction(longer) == Fraction(value) + ZeroDigits(zeros)
  {
    Dissect(value);
    Regroup(Whole(value), Fraction(value), ZeroDigits(zeros));
    DottedParts(Whole(value), Fraction(value) + ZeroDigits(zeros));
    DigitsJoin(Fraction(value), ZeroDigits(zeros));
  }

  /** Zeros after the fraction change nothing but how many decimals it needs. */
  lemma TrailingZerosIgnored(value: string, zeros: nat, decimals: int)
    requires IsAmount(value) && DotAt(value) < |value| && |Fraction(value)| + zeros <= decimals
    ensures ParseUiAmount(value + ZeroDigits(zeros), decimals) == ParseUiAmount(value, decimals)
  {
    WithZeros(value, zeros);
    SamePadding(Fraction(value), zeros, decimals);
  }

  lemma SamePadding(fraction: string, zeros: nat, decimals: int)
    requires |fraction| + zeros <= decimals
    ensures PadEnd(fraction + ZeroDigits(zeros), decimals) == PadEnd(fraction, decimals)
  {
    assert ZeroDigits(zeros) + ZeroDigits(decimals - |fraction| - zeros) == ZeroDigits(decimals - |fraction|);
  }

  // ------------------------------------------------------------------
  // The inverse: canonical d-decimal formatting
  // ------------------------------------------------------------------

  /** The numeral of `n`, padded in front to at least `width` digits. */
  function Padded(n: nat, width: nat): (text: string)
    ensures |text| >= width
  {
    var numeral := Numeral(n);
    if |numeral| >= width then numeral else ZeroDigits(width - |numeral|) + numeral
  }

  /** At least one digit before the dot and exactly `decimals` behind it; no dot without decimals. */
  function Format(n: nat, decimals: nat): string {
    var text := Padded(n, decimals + 1);
    if decimals == 0 then text else text[..|text| - decimals] + "." + text[|text| - decimals..]
  }

  lemma PaddedDenotes(n: nat, width: nat)
    ensures |Padded(n, width)| >= width && Padded(n, width) != ""
    ensures AllDigits(Padded(n, width)) && Value(Padded(n, width)) == n
  {
    NumeralDenotes(n);
    if |Numeral(n)| < width {
      var zeros := ZeroDigits(width - |Numeral(n)|);
      ZerosShift("", width - |Numeral(n)|);
      assert "" + zeros == zeros;
      ZeroShifts(width - |Numeral(n)|);
      ZeroShifts(|Numeral(n)|);
      ValueOfJoin(zeros, Numeral(n));
    }
  }

  lemma {:induction false} ZeroShifts(k: nat)
    ensures Shift(0, k) == 0
  {
    if k > 0 {
      ZeroShifts(k - 1);
    }
  }

  lemma AmountFromParts(whole: string, fraction: string)
    requires AllDigits(whole) && whole != "" && AllDigits(fraction)
    ensures IsAmount(whole) && (fraction != "" ==> IsAmount(whole + "." + fraction))
  {
    DottedParts(whole, fraction);
    DotIs(whole, |whole|);
  }

  lemma DigitsSplit(text: string, at: nat)
    requires AllDigits(text) && at <= |text|
    ensures AllDigits(text[..at]) && AllDigits(text[at..]) && text[..at] + text[at..] == text
  {
  }

  lemma FormatParts(n: nat, decimals: nat)
    ensures var s, text := Format(n, decimals), Padded(n, decimals + 1);
      && Whole(s) + Fraction(s) == text && |Fraction(s)| == decimals && IsAmount(s)
  {
    var text := Padded(n, decimals + 1);
    PaddedDenotes(n, decimals + 1);
    DigitsSplit(text, |text| - decimals);
    var whole, fraction := text[..|text| - decimals], text[|text| - decimals..];
    DottedParts(whole, fraction);
    AmountFromParts(whole, fraction);
  }

  /** Formatting then parsing gives the number back. */
  lemma ParseOfFormat(n: nat, decimals: nat)
    ensures ParseUiAmount(Format(n, decimals), decimals) == Ok(n)
  {
    FormatParts(n, decimals);
    PaddedDenotes(n, decimals + 1);
  }

  /** Parsing then formatting gives the same amount, written canonically. */
  lemma FormatOfParse(value: string, decimals: nat)
    requires ParseUiAmount(value, decimals).Ok?
    ensures var s := Format(ParseUiAmount(value, decimals).value, decimals);
            IsAmount(s) && AmountOf(s) == AmountOf(value)
  {
    var n := ParseUiAmount(value, decimals).value;
    FormatParts(n, decimals);
    ParseOfFormat(n, decimals);
    ParsePreservesOrder(Format(n, decimals), value, decimals);
  }
}
