/**
 `base58Decode` of the provider (loyal-wallet-provider.content.ts): the in-place
 big-number loop, what it computes, and that it is a bijection between strings
 over the 58-character alphabet and byte sequences.
 */
module Base58 {
  import opened Prelude

  /** The digits and letters in code order, without 0, I, O and l. */
  const ALPHABET := "123456789" + "ABCDEFGH" + "JKLMN" + "PQRSTUVWXYZ" + "abcdefghijk" + "mnopqrstuvwxyz"

  /** Indexes into the alphabet, and bytes, as little or big endian digit sequences. */
  type Digits = seq<nat>

  ghost predicate Below(digits: Digits, base: nat) {
    forall i :: 0 <= i < |digits| ==> digits[i] < base
  }

  /** The number a digit sequence denotes, least significant digit first. */
  function ValueLE(digits: Digits, base: nat): nat {
    if digits == [] then 0 else digits[0] + base * ValueLE(digits[1..], base)
  }

  /** The number a digit sequence denotes, most significant digit first. */
  function ValueBE(digits: Digits, base: nat): nat {
    if digits == [] then 0 else base * ValueBE(digits[..|digits| - 1], base) + digits[|digits| - 1]
  }

  function Reversed(s: Digits): (r: Digits)
    ensures |r| == |s|
    ensures forall i :: 0 <= i < |s| ==> r[i] == s[|s| - 1 - i]
  {
    if s == [] then [] else Reversed(s[1..]) + [s[0]]
  }

  function Zeros(n: nat): (z: Digits)
    ensures |z| == n && forall i :: 0 <= i < n ==> z[i] == 0
  {
    seq(n, _ => 0)
  }

  /** How many leading entries are zero. */
  function LeadingZeros(s: Digits): (n: nat)
    ensures n <= |s| && (forall i :: 0 <= i < n ==> s[i] == 0) && (n < |s| ==> s[n] != 0)
  {
    if s == [] || s[0] != 0 then 0 else 1 + LeadingZeros(s[1..])
  }

  /** Little endian without superfluous zeros: the form the loop keeps. */
  ghost predicate Canonical(digits: Digits, base: nat) {
    Below(digits, base) && (digits != [] ==> digits[|digits| - 1] != 0)
  }

  // ------------------------------------------------------------------
  // The alphabet
  // ------------------------------------------------------------------

  /** What the decoder relies on; `letters` stands for the alphabet wherever its entries do not matter. */
  ghost predicate Fit(letters: string) {
    |letters| == 58 && letters[0] == '1' && Distinct(letters)
  }

  /** `indexOf`: the first position of the character, or -1. */
  function IndexOf(letters: string, c: char): (i: int)
    ensures i == -1 <==> c !in letters
    ensures i != -1 ==> 0 <= i < |letters| && letters[i] == c
  {
    if letters == "" then -1
    else if letters[0] == c then 0
    else
      var i := IndexOf(letters[1..], c);
      if i == -1 then -1 else i + 1
  }

  predicate Over(letters: string, str: string) {
    forall i :: 0 <= i < |str| ==> str[i] in letters
  }

  function IndexesOf(letters: string, str: string): (digits: Digits)
    requires Over(letters, str)
    ensures |digits| == |str|
    ensures forall i :: 0 <= i < |str| ==> digits[i] < |letters| && digits[i] == IndexOf(letters, str[i])
  {
    if str == [] then [] else [IndexOf(letters, str[0])] + IndexesOf(letters, str[1..])
  }

  function CharsOf(letters: string, digits: Digits): (str: string)
    requires Below(digits, |letters|)
    ensures |str| == |digits| && Over(letters, str)
    ensures forall i :: 0 <= i < |digits| ==> str[i] == letters[digits[i]]
  {
    if digits == [] then [] else [letters[digits[0]]] + CharsOf(letters, digits[1..])
  }

  /** The alphabet skips 0, I, O and l: six runs of consecutive characters. */
  function CodeOf(d: nat): int {
    if d < 9 then '1' as int + d
    else if d < 17 then 'A' as int + d - 9
    else if d < 22 then 'J' as int + d - 17
    else if d < 33 then 'P' as int + d - 22
    else if d < 44 then 'a' as int + d - 33
    else 'm' as int + d - 44
  }

  lemma AlphabetCodes(d: nat)
    requires d < 58
    ensures |ALPHABET| == 58 && ALPHABET[d] as int == CodeOf(d)
  {
    if d < 9 {
      assert ALPHABET[d] == "123456789"[d];
    } else if d < 17 {
      assert ALPHABET[d] == "ABCDEFGH"[d - 9];
    } else if d < 22 {
      assert ALPHABET[d] == "JKLMN"[d - 17];
    } else if d < 33 {
      assert ALPHABET[d] == "PQRSTUVWXYZ"[d - 22];
    } else if d < 44 {
      assert ALPHABET[d] == "abcdefghijk"[d - 33];
    } else {
      assert ALPHABET[d] == "mnopqrstuvwxyz"[d - 44];
    }
  }

  /** No character stands at two places. */
  lemma AlphabetIsFit()
    ensures Fit(ALPHABET)
  {
    AlphabetCodes(0);
    forall i, j | 0 <= i < j < 58 ensures ALPHABET[i] != ALPHABET[j] {
      AlphabetCodes(i);
      AlphabetCodes(j);
    }
  }

  /** A digit but 0, or a letter but I, O and l, which look like others. */
  predicate Unmistakable(c: char) {
    ('1' <= c <= '9' || 'A' <= c <= 'Z' || 'a' <= c <= 'z') && c != 'I' && c != 'O' && c != 'l'
  }

  /** Where a character of the alphabet stands. */
  function DigitOf(c: char): int {
    var code := c as int;
    if c <= '9' then code - '1' as int
    else if c <= 'H' then code - 'A' as int + 9
    else if c <= 'N' then code - 'J' as int + 17
    else if c <= 'Z' then code - 'P' as int + 22
    else if c <= 'k' then code - 'a' as int + 33
    else code - 'm' as int + 44
  }

  /** The alphabet is all those characters, each once, in the order of their codes. */
  lemma AlphabetIsExact()
    ensures |ALPHABET| == 58 && forall i, j :: 0 <= i < j < |ALPHABET| ==> ALPHABET[i] < ALPHABET[j]
    ensures forall c :: c in ALPHABET <==> Unmistakable(c)
  {
    AlphabetCodes(0);
    forall i, j | 0 <= i < j < 58 ensures ALPHABET[i] < ALPHABET[j] {
      AlphabetCodes(i);
      AlphabetCodes(j);
    }
    forall c ensures c in ALPHABET <==> Unmistakable(c) {
      if c in ALPHABET {
        var d :| 0 <= d < 58 && ALPHABET[d] == c;
        AlphabetCodes(d);
      }
      if Unmistakable(c) {
        AlphabetCodes(DigitOf(c));
      }
    }
  }

  lemma IndexOfEntry(letters: string, d: nat)
    requires Distinct(letters) && d < |letters|
    ensures IndexOf(letters, letters[d]) == d
  {
  }

  // ------------------------------------------------------------------
  // Positional values
  // ------------------------------------------------------------------

  /** The canonical little-endian digits of a number. */
  function ToDigits(n: nat, base: nat): Digits
    requires base >= 2
  {
    if n == 0 then [] else [n % base] + ToDigits(n / base, base)
  }

  lemma DivMod(n: nat, base: nat)
    requires base >= 2
    ensures n % base + base * (n / base) == n && n % base < base
    ensures n / base == 0 ==> n % base == n
    ensures n > 0 ==> n / base < n
  {
  }

  lemma {:induction false} ToDigitsDenotes(n: nat, base: nat)
    requires base >= 2
    ensures Canonical(ToDigits(n, base), base) && ValueLE(ToDigits(n, base), base) == n
  {
    if n != 0 {
      var rest, digit := n / base, n % base;
      DivMod(n, base);
      ToDigitsDenotes(rest, base);
      DigitInFront(digit, ToDigits(rest, base), base);
    }
  }

  /** A digit in front of canonical digits; it must not be zero when it is the last one. */
  lemma DigitInFront(digit: nat, rest: Digits, base: nat)
    requires Canonical(rest, base) && digit < base && (rest == [] ==> digit != 0)
    ensures Canonical([digit] + rest, base)
    ensures ValueLE([digit] + rest, base) == digit + base * ValueLE(rest, base)
  {
    assert ([digit] + rest)[1..] == rest;
  }

  lemma DivModUnique(base: nat, q: nat, r: nat)
    requires r < base
    ensures (r + base * q) / base == q && (r + base * q) % base == r
    decreases q
  {
    var n := r + base * q;
    assert n == base * (n / base) + n % base;
    if n / base < q {
      MulGap(base, n / base, q);
    } else if n / base > q {
      MulGap(base, q, n / base);
    }
  }

  lemma {:induction false} MulGap(base: nat, a: nat, b: nat)
    requires a < b
    ensures base * a + base <= base * b
  {
    assert base * b == base * (b - 1) + base;
    if a + 1 < b {
      MulGap(base, a, b - 1);
    }
  }

  /** Canonical digits are determined by their value. */
  lemma {:induction false} CanonicalIsToDigits(digits: Digits, base: nat)
    requires base >= 2 && Canonical(digits, base)
    ensures ToDigits(ValueLE(digits, base), base) == digits
    ensures digits != [] ==> ValueLE(digits, base) > 0
  {
    if digits != [] {
      var rest := digits[1..];
      CanonicalIsToDigits(rest, base);
      DivModUnique(base, ValueLE(rest, base), digits[0]);
      if rest != [] {
        MulGap(base, 0, ValueLE(rest, base));
      }
    }
  }

  lemma {:induction false} ValueOfReversed(digits: Digits, base: nat)
    ensures ValueBE(Reversed(digits), base) == ValueLE(digits, base)
  {
    if digits != [] {
      ValueOfReversed(digits[1..], base);
      assert Reversed(digits)[..|digits| - 1] == Reversed(digits[1..]);
    }
  }

  lemma ReversedTwice(digits: Digits)
    ensures Reversed(Reversed(digits)) == digits
  {
  }

  lemma {:induction false} ZerosPrefix(z: nat, digits: Digits, base: nat)
    ensures ValueBE(Zeros(z) + digits, base) == ValueBE(digits, base)
    decreases |digits|
  {
    var all := Zeros(z) + digits;
    if digits == [] {
      assert all == Zeros(z);
      ZerosDenoteZero(z, base);
    } else {
      assert all[..|all| - 1] == Zeros(z) + digits[..|digits| - 1];
      ZerosPrefix(z, digits[..|digits| - 1], base);
    }
  }

  lemma {:induction false} ZerosDenoteZero(z: nat, base: nat)
    ensures ValueBE(Zeros(z), base) == 0
  {
    if z > 0 {
      assert Zeros(z)[..z - 1] == Zeros(z - 1);
      ZerosDenoteZero(z - 1, base);
    }
  }

  lemma LeadingZerosOf(z: nat, digits: Digits)
    requires digits != [] ==> digits[0] != 0
    ensures LeadingZeros(Zeros(z) + digits) == z
  {
    var all := Zeros(z) + digits;
    var n := LeadingZeros(all);
    assert digits != [] ==> all[z] == digits[0];
  }

  // ------------------------------------------------------------------
  // Changing the base
  // ------------------------------------------------------------------

  /** Keep the leading zeros one for one; write the number in the other base. */
  function Convert(digits: Digits, from: nat, to: nat): Digits
    requires to >= 2
  {
    Zeros(LeadingZeros(digits)) + Reversed(ToDigits(ValueBE(digits, from), to))
  }

  lemma ConvertKeeps(digits: Digits, from: nat, to: nat)
    requires to >= 2
    ensures var out := Convert(digits, from, to);
      Below(out, to) && ValueBE(out, to) == ValueBE(digits, from) && LeadingZeros(out) == LeadingZeros(digits)
  {
    var n, z := ValueBE(digits, from), LeadingZeros(digits);
    var tail := Reversed(ToDigits(n, to));
    ToDigitsDenotes(n, to);
    ZerosPrefix(z, tail, to);
    ValueOfReversed(ToDigits(n, to), to);
    LeadingZerosOf(z, tail);
  }

  lemma SplitZeros(digits: Digits)
    ensures digits == Zeros(LeadingZeros(digits)) + digits[LeadingZeros(digits)..]
  {
  }

  lemma ReversedTail(digits: Digits, base: nat)
    requires Below(digits, base)
    ensures Canonical(Reversed(digits[LeadingZeros(digits)..]), base)
  {
  }

  /** Behind its leading zeros, a digit sequence is its value's canonical form, reversed. */
  lemma TailIsCanonical(digits: Digits, base: nat)
    requires base >= 2 && Below(digits, base)
    ensures ToDigits(ValueBE(digits, base), base) == Reversed(digits[LeadingZeros(digits)..])
  {
    var rest := digits[LeadingZeros(digits)..];
    SplitZeros(digits);
    ReversedTail(digits, base);
    ZerosPrefix(LeadingZeros(digits), rest, base);
    ValueIsReversedValue(rest, base);
    CanonicalIsToDigits(Reversed(rest), base);
  }

  lemma ValueIsReversedValue(digits: Digits, base: nat)
    ensures ValueLE(Reversed(digits), base) == ValueBE(digits, base)
  {
    ValueOfReversed(Reversed(digits), base);
    ReversedTwice(digits);
  }

  /** Converting back gives the digits one started with. */
  lemma ConvertInverts(digits: Digits, from: nat, to: nat)
    requires from >= 2 && to >= 2 && Below(digits, from)
    ensures Convert(Convert(digits, from, to), to, from) == digits
  {
    ConvertKeeps(digits, from, to);
    TailIsCanonical(digits, from);
    SplitZeros(digits);
    ReversedTwice(digits[LeadingZeros(digits)..]);
  }

  // ------------------------------------------------------------------
  // The decoder
  // ------------------------------------------------------------------

  /** The bytes pushed for a carry left over at the end of a round. */
  function CarryBytes(carry: nat): Digits {
    if carry == 0 then [] else [carry % 256] + CarryBytes(carry / 256)
  }

  /** One round of the loop: multiply the little-endian number by 58 and add the digit. */
  function MulAdd(bytes: Digits, carry: nat): Digits {
    if bytes == [] then CarryBytes(carry)
    else
      var x := bytes[0] * 58 + carry;
      [x % 256] + MulAdd(bytes[1..], x / 256)
  }

  /**
   A round keeps the number canonical and computes 58 times the value plus the
   digit; its carry stays below 58, so at most one byte is pushed.
   */
  lemma {:induction false} MulAddDenotes(bytes: Digits, carry: nat)
    requires Canonical(bytes, 256) && carry < 58
    ensures var out := MulAdd(bytes, carry);
      && Canonical(out, 256) && ValueLE(out, 256) == 58 * ValueLE(bytes, 256) + carry
      && |bytes| <= |out| <= |bytes| + 1
  {
    if bytes == [] {
      assert carry / 256 == 0 && CarryBytes(carry / 256) == [];
    } else {
      var x := bytes[0] * 58 + carry;
      assert x / 256 < 58;
      MulAddDenotes(bytes[1..], x / 256);
      assert x == x % 256 + 256 * (x / 256);
    }
  }

  function Accumulate(digits: Digits): Digits {
    if digits == [] then [] else MulAdd(Accumulate(digits[..|digits| - 1]), digits[|digits| - 1])
  }

  lemma {:induction false} AccumulateDenotes(digits: Digits)
    requires Below(digits, 58)
    ensures Canonical(Accumulate(digits), 256) && ValueLE(Accumulate(digits), 256) == ValueBE(digits, 58)
    ensures Accumulate(digits) == ToDigits(ValueBE(digits, 58), 256)
  {
    if digits != [] {
      AccumulateDenotes(digits[..|digits| - 1]);
      MulAddDenotes(Accumulate(digits[..|digits| - 1]), digits[|digits| - 1]);
    }
    CanonicalIsToDigits(Accumulate(digits), 256);
  }

  lemma SmallCarry(byte: nat, carry: nat)
    requires byte < 256 && carry < 58
    ensures (byte * 58 + carry) / 256 < 58
  {
  }

  /** One turn of the first inner loop moves a byte from what is to come to what is done. */
  lemma TurnDone(done: Digits, bytes: Digits, carry: nat)
    requires bytes != []
    ensures var x := bytes[0] * 58 + carry;
      done + MulAdd(bytes, carry) == done + [x % 256] + MulAdd(bytes[1..], x / 256)
  {
    var x := bytes[0] * 58 + carry;
    assert done + ([x % 256] + MulAdd(bytes[1..], x / 256)) == done + [x % 256] + MulAdd(bytes[1..], x / 256);
  }

  /** The first inner loop: `x & 0xff` and `x >> 8` on small non-negative numbers, in place. */
  method MultiplyInPlace(bytes: Digits, digit: nat) returns (out: Digits, carry: nat)
    requires Below(bytes, 256) && digit < 58
    ensures out + CarryBytes(carry) == MulAdd(bytes, digit)
  {
    out := bytes;
    carry := digit;
    for i := 0 to |bytes|
      invariant |out| == |bytes| && carry < 58
      invariant out[i..] == bytes[i..]
      invariant out[..i] + MulAdd(bytes[i..], carry) == MulAdd(bytes, digit)
    {
      assert out[i] == bytes[i] by {
        assert out[i..][0] == bytes[i..][0];
      }
      TurnDone(out[..i], bytes[i..], carry);
      SmallCarry(bytes[i], carry);
      var x := out[i] * 58 + carry;
      ghost var before := out;
      out := out[i := x % 256];
      carry := x / 256;
      assert bytes[i..][1..] == bytes[i + 1..];
      assert out[i + 1..] == before[i..][1..];
      assert out[..i + 1] == before[..i] + [x % 256];
    }
    assert bytes[|bytes|..] == [] && out[..|bytes|] == out;
  }

  /** Both inner loops: multiply in place, then push what is left of the carry. */
  method MulAddInPlace(bytes: Digits, digit: nat) returns (out: Digits)
    requires Canonical(bytes, 256) && digit < 58
    ensures out == MulAdd(bytes, digit)
    ensures Canonical(out, 256) && ValueLE(out, 256) == 58 * ValueLE(bytes, 256) + digit
  {
    var carry: nat;
    out, carry := MultiplyInPlace(bytes, digit);
    while carry > 0
      invariant out + CarryBytes(carry) == MulAdd(bytes, digit)
    {
      ghost var before, left := out, carry;
      out := out + [carry % 256];
      carry := carry / 256;
      assert out + CarryBytes(carry) == before + CarryBytes(left);
    }
    MulAddDenotes(bytes, digit);
  }

  /** How many leading '1's the loop after the decoding counts. */
  method CountLeadingOnes(str: string) returns (n: nat)
    ensures n <= |str| && (forall i :: 0 <= i < n ==> str[i] == '1') && (n < |str| ==> str[n] != '1')
  {
    n := 0;
    while n < |str| && str[n] == '1'
      invariant n <= |str| && forall i :: 0 <= i < n ==> str[i] == '1'
    {
      n := n + 1;
    }
  }

  lemma LeadingOnesAreZeros(letters: string, str: string, n: nat)
    requires Fit(letters) && Over(letters, str)
    requires n <= |str| && (forall i :: 0 <= i < n ==> str[i] == '1') && (n < |str| ==> str[n] != '1')
    ensures n == LeadingZeros(IndexesOf(letters, str))
  {
    IndexOfEntry(letters, 0);
    var digits := IndexesOf(letters, str);
    assert forall i :: 0 <= i < |str| ==> (digits[i] == 0 <==> str[i] == '1');
    LeadingZerosAre(digits, n);
  }

  lemma LeadingZerosAre(digits: Digits, n: nat)
    requires n <= |digits| && (forall i :: 0 <= i < n ==> digits[i] == 0) && (n < |digits| ==> digits[n] != 0)
    ensures n == LeadingZeros(digits)
  {
  }

  /** Lay the little-endian bytes out behind the zeros, reversed. */
  method LayOut(leadingZeros: nat, bytes: Digits) returns (out: Digits)
    ensures out == Zeros(leadingZeros) + Reversed(bytes)
  {
    var result := new nat[leadingZeros + |bytes|](_ => 0);
    for i := 0 to |bytes|
      invariant forall j :: 0 <= j < leadingZeros ==> result[j] == 0
      invariant forall j :: leadingZeros <= j < leadingZeros + i ==>
                  result[j] == bytes[|bytes| - 1 - (j - leadingZeros)]
    {
      result[leadingZeros + i] := bytes[|bytes| - 1 - i];
    }
    out := result[..];
  }

  /** The first character outside the alphabet. */
  ghost predicate FirstBad(letters: string, str: string, c: char) {
    exists i :: 0 <= i < |str| && str[i] == c && c !in letters && Over(letters, str[..i])
  }

  lemma OneMore(letters: string, str: string, k: nat)
    requires k < |str| && Over(letters, str[..k]) && str[k] in letters
    ensures Over(letters, str[..k + 1])
    ensures Accumulate(IndexesOf(letters, str[..k + 1]))
            == MulAdd(Accumulate(IndexesOf(letters, str[..k])), IndexOf(letters, str[k]))
  {
    var more := str[..k + 1];
    forall i | 0 <= i < |more| ensures more[i] in letters {
      assert i < k ==> more[i] == str[..k][i];
    }
    var digits := IndexesOf(letters, str[..k + 1]);
    assert digits[..k] == IndexesOf(letters, str[..k]);
    assert digits[k] == IndexOf(letters, str[k]);
    assert Accumulate(digits) == MulAdd(Accumulate(digits[..k]), digits[k]);
  }

  /** The outer loop: one multiply-and-add per character, until a character is not in the alphabet. */
  method DecodeDigits(letters: string, str: string) returns (r: Result<Digits, char>)
    requires Fit(letters)
    ensures r.Ok? <==> Over(letters, str)
    ensures r.Ok? ==> r.value == Accumulate(IndexesOf(letters, str))
    ensures r.Err? ==> FirstBad(letters, str, r.error)
  {
    var bytes: Digits := [];
    for k := 0 to |str|
      invariant Over(letters, str[..k])
      invariant bytes == Accumulate(IndexesOf(letters, str[..k])) && Canonical(bytes, 256)
    {
      var carry := IndexOf(letters, str[k]);
      if carry == -1 {
        return Err(str[k]);
      }
      OneMore(letters, str, k);
      bytes := MulAddInPlace(bytes, carry);
    }
    assert str[..|str|] == str;
    return Ok(bytes);
  }

  /** The decoded bytes, as the property the format promises: same number, same leading zeros. */
  function Decoded(letters: string, str: string): Digits
    requires Over(letters, str)
  {
    Convert(IndexesOf(letters, str), 58, 256)
  }

  /**
   The decoder throws on the first character outside the alphabet, and only then; else it returns the
   decoded bytes.
   */
  method Base58Decode(str: string) returns (r: Result<Digits, char>)
    ensures r.Ok? <==> Over(ALPHABET, str)
    ensures r.Ok? ==> r.value == Decoded(ALPHABET, str)
    ensures r.Err? ==> FirstBad(ALPHABET, str, r.error)
  {
    AlphabetIsFit();
    r := DecodeWith(ALPHABET, str);
  }

  method DecodeWith(letters: string, str: string) returns (r: Result<Digits, char>)
    requires Fit(letters)
    ensures r.Ok? <==> Over(letters, str)
    ensures r.Ok? ==> r.value == Decoded(letters, str)
    ensures r.Err? ==> FirstBad(letters, str, r.error)
  {
    r := DecodeDigits(letters, str);
    if r.Ok? {
      var leadingZeros := CountLeadingOnes(str);
      LeadingOnesAreZeros(letters, str, leadingZeros);
      AccumulateDenotes(IndexesOf(letters, str));
      var result := LayOut(leadingZeros, r.value);
      r := Ok(result);
    }
  }

  // ------------------------------------------------------------------
  // Main results
  // ------------------------------------------------------------------

  /** The reference encoder. */
  function Encoded(letters: string, bytes: Digits): (str: string)
    requires |letters| == 58
    ensures Over(letters, str)
  {
    ConvertKeeps(bytes, 256, 58);
    CharsOf(letters, Convert(bytes, 256, 58))
  }

  lemma IndexesOfChars(letters: string, digits: Digits)
    requires Distinct(letters) && Below(digits, |letters|)
    ensures IndexesOf(letters, CharsOf(letters, digits)) == digits
  {
    forall i | 0 <= i < |digits| ensures IndexesOf(letters, CharsOf(letters, digits))[i] == digits[i] {
      IndexOfEntry(letters, digits[i]);
    }
  }

  lemma CharsOfIndexes(letters: string, str: string)
    requires Over(letters, str)
    ensures CharsOf(letters, IndexesOf(letters, str)) == str
  {
  }

  /** The bytes denote the string's base-58 number, with as many leading zeros as the string has leading '1's. */
  ghost predicate Denotes(letters: string, str: string, bytes: Digits)
    requires Over(letters, str)
  {
    && Below(bytes, 256) && ValueBE(bytes, 256) == ValueBE(IndexesOf(letters, str), 58)
    && LeadingZeros(bytes) == LeadingZeros(IndexesOf(letters, str))
  }

  /** The decoder's result is the one byte sequence that denotes the string. */
  lemma DecodedIsExact(letters: string, str: string, bytes: Digits)
    requires Fit(letters) && Over(letters, str)
    ensures Denotes(letters, str, bytes) <==> bytes == Decoded(letters, str)
  {
    var out := Decoded(letters, str);
    ConvertKeeps(IndexesOf(letters, str), 58, 256);
    if Denotes(letters, str, bytes) {
      ConvertInverts(bytes, 256, 58);
      ConvertInverts(out, 256, 58);
    }
  }

  /** The encoder undoes the decoder. */
  lemma DecodeThenEncode(letters: string, str: string)
    requires Fit(letters) && Over(letters, str)
    ensures Below(Decoded(letters, str), 256) && Encoded(letters, Decoded(letters, str)) == str
  {
    ConvertKeeps(IndexesOf(letters, str), 58, 256);
    ConvertInverts(IndexesOf(letters, str), 58, 256);
    CharsOfIndexes(letters, str);
  }

  /** The decoder undoes the encoder. */
  lemma EncodeThenDecode(letters: string, bytes: Digits)
    requires Fit(letters) && Below(bytes, 256)
    ensures Decoded(letters, Encoded(letters, bytes)) == bytes
  {
    ConvertKeeps(bytes, 256, 58);
    IndexesOfChars(letters, Convert(bytes, 256, 58));
    ConvertInverts(bytes, 256, 58);
  }

  /** So every byte sequence is decoded from exactly one string over the alphabet. */
  lemma DecodingIsBijective(str: string, bytes: Digits)
    requires Over(ALPHABET, str) && Below(bytes, 256)
    ensures |ALPHABET| == 58 && (Decoded(ALPHABET, str) == bytes <==> str == Encoded(ALPHABET, bytes))
  {
    AlphabetIsFit();
    DecodeThenEncode(ALPHABET, str);
    EncodeThenDecode(ALPHABET, bytes);
  }
}
