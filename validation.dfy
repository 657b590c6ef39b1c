/**
  * The payment-method checks of the gateway's validation service: the VPA
  * syntax check, the Luhn checksum of a card number, card network detection
  * by prefix, and the card expiry check against the current month.
  */
module Validation {
  import opened Wrappers

  // ---------------------------------------------------------------------------
  // Character classes
  // ---------------------------------------------------------------------------

  predicate IsAsciiDigit(c: char) { '0' <= c <= '9' }

  predicate IsAsciiLetter(c: char) { 'A' <= c <= 'Z' || 'a' <= c <= 'z' }

  predicate IsAsciiAlnum(c: char) { IsAsciiLetter(c) || IsAsciiDigit(c) }

  /** The class `[a-zA-Z0-9._-]` of characters allowed before the '@' of a VPA. */
  predicate IsLocalChar(c: char) { IsAsciiAlnum(c) || c == '.' || c == '_' || c == '-' }

  predicate AllLocalChars(s: string) { forall i :: 0 <= i < |s| ==> IsLocalChar(s[i]) }

  predicate AllAlnum(s: string) { forall i :: 0 <= i < |s| ==> IsAsciiAlnum(s[i]) }

  predicate AllDigits(s: string) { forall i :: 0 <= i < |s| ==> IsAsciiDigit(s[i]) }

  /** The value of an ASCII decimal digit. */
  function DigitValue(c: char): (d: int)
    requires IsAsciiDigit(c)
    ensures 0 <= d <= 9
  {
    c as int - '0' as int
  }

  // ---------------------------------------------------------------------------
  // VPA
  // ---------------------------------------------------------------------------

  /** The position of the first '@' of `s`, or |s| when `s` has none. */
  function FirstAt(s: string): (k: nat)
    ensures k <= |s|
    ensures k < |s| ==> s[k] == '@'
    ensures forall j :: 0 <= j < k ==> s[j] != '@'
  {
    if s == [] then 0
    else if s[0] == '@' then 0
    else 1 + FirstAt(s[1..])
  }

  /**
    * The anchored pattern `^[a-zA-Z0-9._-]+@[a-zA-Z0-9]+$`, read from the
    * first '@': a non-empty local part before it and a non-empty handle after it.
    */
  predicate ValidateVPA(vpa: string)
  {
    var k := FirstAt(vpa);
    0 < k && k + 1 < |vpa| && AllLocalChars(vpa[..k]) && AllAlnum(vpa[k + 1..])
  }

  /** A split of `vpa` into local part, '@' and handle, as the pattern describes it. */
  predicate IsVpaSplit(vpa: string, k: int)
  {
    0 < k < |vpa| - 1 && vpa[k] == '@' && AllLocalChars(vpa[..k]) && AllAlnum(vpa[k + 1..])
  }

  /** The first '@' of a string whose prefix before position `k` is free of '@' is at `k`. */
  lemma {:induction false} FirstAtIs(s: string, k: nat)
    requires k < |s| && s[k] == '@'
    requires forall j :: 0 <= j < k ==> s[j] != '@'
    ensures FirstAt(s) == k
  {
    if k > 0 {
      assert s[0] != '@';
      FirstAtIs(s[1..], k - 1);
    }
  }

  /**
    * A VPA is accepted exactly when it is L '@' H with L a non-empty string over
    * `[A-Za-z0-9._-]` and H a non-empty string over `[A-Za-z0-9]`; the '@' of
    * such a split is its only '@', so "user@@bank" and "nodomain" are refused.
    */
  lemma VpaShape(vpa: string)
    ensures ValidateVPA(vpa) <==> exists k :: IsVpaSplit(vpa, k)
    ensures ValidateVPA(vpa) ==> forall j :: 0 <= j < |vpa| ==> (vpa[j] == '@' <==> j == FirstAt(vpa))
  {
    if exists k :: IsVpaSplit(vpa, k) {
      var k :| IsVpaSplit(vpa, k);
      forall j | 0 <= j < k ensures vpa[j] != '@' {
        assert vpa[..k][j] == vpa[j];
        assert IsLocalChar(vpa[..k][j]);
      }
      FirstAtIs(vpa, k);
    }
    if ValidateVPA(vpa) {
      var k := FirstAt(vpa);
      assert IsVpaSplit(vpa, k);
      forall j | k < j < |vpa| ensures vpa[j] != '@' {
        assert vpa[k + 1..][j - k - 1] == vpa[j];
        assert IsAsciiAlnum(vpa[k + 1..][j - k - 1]);
      }
    }
  }

  // The example lemmas bind their literals with `:|` so that the verifier
  // reasons about them through the lemmas above instead of unfolding the
  // recursive definitions on a literal argument.

  lemma VpaAcceptsExample()
    ensures ValidateVPA("user.name-1@bank")
  {
    var good: string :| good == "user.name-1@bank";
    assert IsVpaSplit(good, 11);
    VpaShape(good);
  }

  lemma VpaRejectsExamples()
    ensures !ValidateVPA("user@@bank")
    ensures !ValidateVPA("nodomain")
  {
    var doubled: string :| doubled == "user@@bank";
    FirstAtIs(doubled, 4);
    assert !IsAsciiAlnum(doubled[5..][0]);
    var bare: string :| bare == "nodomain";
    assert forall j :: 0 <= j < |bare| ==> bare[j] != '@';
    assert FirstAt(bare) == |bare|;
  }

  // ---------------------------------------------------------------------------
  // Separators
  // ---------------------------------------------------------------------------

  /**
    * The class `\s` of ECMAScript regular expressions: the WhiteSpace and
    * LineTerminator code points.
    */
  predicate IsJsWhitespace(c: char)
  {
    var n := c as int;
    n == 0x09 || n == 0x0A || n == 0x0B || n == 0x0C || n == 0x0D || n == 0x20
    || n == 0xA0 || n == 0x1680 || (0x2000 <= n <= 0x200A) || n == 0x2028
    || n == 0x2029 || n == 0x202F || n == 0x205F || n == 0x3000 || n == 0xFEFF
  }

  /** The class `[\s-]` of characters stripped from a card number. */
  predicate IsSeparator(c: char) { c == '-' || IsJsWhitespace(c) }

  /** `number.replace(/[\s-]/g, '')`: the number with every separator removed. */
  function Clean(s: string): (r: string)
    ensures |r| <= |s|
    ensures forall i :: 0 <= i < |r| ==> !IsSeparator(r[i])
  {
    if s == [] then []
    else (if IsSeparator(s[0]) then [] else [s[0]]) + Clean(s[1..])
  }

  lemma {:induction false} CleanConcat(a: string, b: string)
    ensures Clean(a + b) == Clean(a) + Clean(b)
  {
    if a == [] {
      assert a + b == b;
    } else {
      assert (a + b)[1..] == a[1..] + b;
      CleanConcat(a[1..], b);
    }
  }

  /** A string without separators is left as it is. */
  lemma {:induction false} CleanKeeps(s: string)
    requires forall i :: 0 <= i < |s| ==> !IsSeparator(s[i])
    ensures Clean(s) == s
  {
    if s != [] {
      CleanKeeps(s[1..]);
    }
  }

  lemma DigitsHaveNoSeparator(s: string)
    requires AllDigits(s)
    ensures Clean(s) == s
  {
    forall i | 0 <= i < |s| ensures !IsSeparator(s[i]) {
      assert IsAsciiDigit(s[i]);
    }
    CleanKeeps(s);
  }

  /** A lone separator is removed. */
  lemma CleanSeparator(c: char)
    requires IsSeparator(c)
    ensures Clean([c]) == []
  {
    assert [c][1..] == [];
  }

  /** Inserting a space, a hyphen or any other separator anywhere leaves the cleaned number unchanged. */
  lemma SeparatorInsertion(s: string, i: nat, c: char)
    requires i <= |s| && IsSeparator(c)
    ensures Clean(s[..i] + [c] + s[i..]) == Clean(s)
  {
    var before, after := s[..i], s[i..];
    CleanConcat(before + [c], after);
    CleanConcat(before, [c]);
    CleanSeparator(c);
    assert Clean(before + [c]) == Clean(before);
    CleanConcat(before, after);
    assert before + after == s;
  }

  // ---------------------------------------------------------------------------
  // Luhn checksum
  // ---------------------------------------------------------------------------

  /** `^\d{13,19}$` on the cleaned number. */
  predicate IsCardDigits(s: string)
  {
    13 <= |s| <= 19 && AllDigits(s)
  }

  /**
    * What one digit adds to the Luhn sum: itself, or, when it is doubled,
    * its double with 9 taken off a double above 9.
    */
  function Contribution(d: int, doubled: bool): (v: int)
    requires 0 <= d <= 9
    ensures 0 <= v <= 9
    ensures doubled ==> (v == 2 * d || v == 2 * d - 9)
    ensures !doubled ==> v == d
  {
    if doubled then (if 2 * d > 9 then 2 * d - 9 else 2 * d) else d
  }

  /** Different digits at the same position contribute different values. */
  lemma ContributionInjective(d: int, e: int, doubled: bool)
    requires 0 <= d <= 9 && 0 <= e <= 9 && d != e
    ensures Contribution(d, doubled) != Contribution(e, doubled)
  {
  }

  /**
    * The Luhn sum of a digit string: the digit at distance p from the right
    * end (the rightmost at distance 0) is doubled exactly when p is odd.
    */
  function LuhnSum(s: string): (sum: int)
    requires AllDigits(s)
    ensures 0 <= sum <= 9 * |s|
  {
    if s == [] then 0
    else Contribution(DigitValue(s[0]), |s| % 2 == 0) + LuhnSum(s[1..])
  }

  /** One step of the right-to-left accumulation: the digit at position `i` joins the sum of the digits after it. */
  lemma LuhnSumStep(s: string, i: nat)
    requires AllDigits(s) && i < |s|
    ensures LuhnSum(s[i..]) == Contribution(DigitValue(s[i]), (|s| - i) % 2 == 0) + LuhnSum(s[i + 1..])
  {
    assert s[i..][1..] == s[i + 1..];
  }

  /** The checksum the validation service computes, as a property of the raw number. */
  predicate LuhnValid(number: string)
  {
    var cleaned := Clean(number);
    IsCardDigits(cleaned) && LuhnSum(cleaned) % 10 == 0
  }

  /**
    * `validateCardLuhn`: strips separators, refuses anything but 13 to 19
    * decimal digits, then accumulates the checksum from the rightmost digit
    * leftwards, doubling every second digit.
    */
  method ValidateCardLuhn(number: string) returns (valid: bool)
    ensures valid == LuhnValid(number)
    ensures !IsCardDigits(Clean(number)) ==> !valid
  {
    var cleaned := Clean(number);
    if !IsCardDigits(cleaned) {
      return false;
    }
    var sum := 0;
    var shouldDouble := false;
    var i := |cleaned| - 1;
    while i >= 0
      invariant -1 <= i < |cleaned|
      invariant sum == LuhnSum(cleaned[i + 1..])
      invariant shouldDouble <==> (|cleaned| - 1 - i) % 2 == 1
    {
      LuhnSumStep(cleaned, i);
      var digit := DigitValue(cleaned[i]);
      if shouldDouble {
        digit := digit * 2;
        if digit > 9 {
          digit := digit - 9;
        }
      }
      sum := sum + digit;
      shouldDouble := !shouldDouble;
      i := i - 1;
    }
    assert cleaned[0..] == cleaned;
    valid := sum % 10 == 0;
  }

  /** Replacing one digit changes the Luhn sum by exactly the change of that digit's contribution. */
  lemma {:induction false} LuhnSumUpdate(s: string, i: nat, c: char)
    requires AllDigits(s) && i < |s| && IsAsciiDigit(c)
    ensures AllDigits(s[i := c])
    ensures LuhnSum(s[i := c]) == LuhnSum(s)
                                  - Contribution(DigitValue(s[i]), (|s| - i) % 2 == 0)
                                  + Contribution(DigitValue(c), (|s| - i) % 2 == 0)
  {
    if i > 0 {
      assert s[i := c][1..] == s[1..][i - 1 := c];
      LuhnSumUpdate(s[1..], i - 1, c);
    }
  }

  /**
    * The checksum catches every single-digit error: changing one digit of a
    * valid card number (written without separators) yields an invalid one.
    */
  lemma SingleDigitErrorDetected(number: string, i: nat, c: char)
    requires LuhnValid(number) && AllDigits(number)
    requires i < |number| && IsAsciiDigit(c) && c != number[i]
    ensures !LuhnValid(number[i := c])
  {
    DigitsHaveNoSeparator(number);
    LuhnSumUpdate(number, i, c);
    DigitsHaveNoSeparator(number[i := c]);
    var doubled := (|number| - i) % 2 == 0;
    ContributionInjective(DigitValue(number[i]), DigitValue(c), doubled);
    NonZeroShiftBreaksMultiple(LuhnSum(number),
      Contribution(DigitValue(c), doubled) - Contribution(DigitValue(number[i]), doubled));
  }

  lemma NonZeroShiftBreaksMultiple(sum: int, delta: int)
    requires sum % 10 == 0 && -9 <= delta <= 9 && delta != 0
    ensures (sum + delta) % 10 != 0
  {
  }

  /** The Luhn sum is additive over a prefix followed by a block of even length. */
  lemma {:induction false} LuhnSumSplit(a: string, b: string)
    requires AllDigits(a) && AllDigits(b) && |b| % 2 == 0
    ensures AllDigits(a + b)
    ensures LuhnSum(a + b) == LuhnSum(a) + LuhnSum(b)
  {
    if a != [] {
      var ab := a + b;
      assert ab[0] == a[0] && ab[1..] == a[1..] + b;
      assert |ab| % 2 == |a| % 2;
      LuhnSumSplit(a[1..], b);
      assert LuhnSum(ab) == Contribution(DigitValue(a[0]), |a| % 2 == 0) + LuhnSum(a[1..] + b);
    } else {
      assert a + b == b;
    }
  }

  /** In a group of four digits the first and third are doubled. */
  lemma GroupSum(s: string)
    requires |s| == 4 && AllDigits(s)
    ensures LuhnSum(s) == Contribution(DigitValue(s[0]), true) + DigitValue(s[1])
                        + Contribution(DigitValue(s[2]), true) + DigitValue(s[3])
  {
    LuhnSumStep(s, 0);
    LuhnSumStep(s, 1);
    LuhnSumStep(s, 2);
    LuhnSumStep(s, 3);
    assert s[4..] == [];
    assert s[0..] == s;
  }

  /** In a sixteen-digit number every digit at an even index is doubled. */
  lemma SixteenDigitSum(s: string)
    requires |s| == 16 && AllDigits(s)
    ensures LuhnSum(s) == Contribution(DigitValue(s[0]), true) + DigitValue(s[1]) + Contribution(DigitValue(s[2]), true) + DigitValue(s[3])
                        + Contribution(DigitValue(s[4]), true) + DigitValue(s[5]) + Contribution(DigitValue(s[6]), true) + DigitValue(s[7])
                        + Contribution(DigitValue(s[8]), true) + DigitValue(s[9]) + Contribution(DigitValue(s[10]), true) + DigitValue(s[11])
                        + Contribution(DigitValue(s[12]), true) + DigitValue(s[13]) + Contribution(DigitValue(s[14]), true) + DigitValue(s[15])
  {
    assert s == s[..4] + s[4..8] + s[8..12] + s[12..];
    LuhnSumSplit(s[..4], s[4..8]);
    LuhnSumSplit(s[..4] + s[4..8], s[8..12]);
    LuhnSumSplit(s[..4] + s[4..8] + s[8..12], s[12..]);
    GroupSum(s[..4]);
    GroupSum(s[4..8]);
    GroupSum(s[8..12]);
    GroupSum(s[12..]);
  }

  // The example lemmas take their literals as parameters fixed by `requires`
  // so that the verifier reasons about them through the lemmas above instead
  // of unfolding the recursive definitions on a literal argument.

  /** A valid card number: its Luhn sum is 50. */
  lemma LuhnValidExample(number: string)
    requires number == "4532015112830366"
    ensures AllDigits(number) && LuhnSum(number) == 50 && LuhnValid(number)
  {
    assert AllDigits(number);
    SixteenDigitSum(number);
    DigitsHaveNoSeparator(number);
  }

  /** The valid number above, and the same number with its check digit off by one. */
  lemma LuhnExamples(number: string, typo: string)
    requires number == "4532015112830366" && typo == "4532015112830367"
    ensures LuhnValid(number)
    ensures !LuhnValid(typo)
  {
    LuhnValidExample(number);
    assert typo == number[15 := '7'];
    SingleDigitErrorDetected(number, 15, '7');
  }

  // ---------------------------------------------------------------------------
  // Card network
  // ---------------------------------------------------------------------------

  datatype CardNetwork = Visa | Mastercard | Amex | Rupay | Unknown

  /**
    * `parseInt(cleaned.substring(0, 2))` as far as the prefix rules can tell:
    * the number written by two leading ASCII digits. Any other prefix parses
    * to a value below 10 or to NaN, and neither satisfies a rule below, all of
    * whose ranges start at 34; both are represented by None.
    */
  function FirstTwo(s: string): (v: Option<int>)
    ensures v.Some? ==> 0 <= v.value <= 99
  {
    if |s| >= 2 && IsAsciiDigit(s[0]) && IsAsciiDigit(s[1])
    then Some(10 * DigitValue(s[0]) + DigitValue(s[1]))
    else None
  }

  /** `detectCardNetwork`: the first matching prefix rule decides. */
  function DetectCardNetwork(number: string): CardNetwork
  {
    var cleaned := Clean(number);
    if |cleaned| > 0 && cleaned[0] == '4' then Visa
    else match FirstTwo(cleaned)
      case None => Unknown
      case Some(v) =>
        if 51 <= v <= 55 then Mastercard
        else if v == 34 || v == 37 then Amex
        else if v == 60 || v == 65 || 81 <= v <= 89 then Rupay
        else Unknown
  }

  /** The two leading characters of a cleaned number are `a` then one of `bs`. */
  predicate StartsWithPair(s: string, a: char, bs: set<char>)
  {
    |s| >= 2 && s[0] == a && s[1] in bs
  }

  /**
    * The network as a function of the leading characters of the cleaned
    * number: visa for a leading '4' whatever follows; mastercard for 51-55;
    * amex for 34 and 37; rupay for 60, 65 and 81-89; unknown otherwise.
    */
  lemma NetworkByPrefix(number: string)
    ensures var c := Clean(number);
      && (DetectCardNetwork(number) == Visa <==> |c| > 0 && c[0] == '4')
      && (DetectCardNetwork(number) == Mastercard <==> StartsWithPair(c, '5', {'1', '2', '3', '4', '5'}))
      && (DetectCardNetwork(number) == Amex <==> StartsWithPair(c, '3', {'4', '7'}))
      && (DetectCardNetwork(number) == Rupay <==>
            StartsWithPair(c, '6', {'0', '5'})
            || StartsWithPair(c, '8', {'1', '2', '3', '4', '5', '6', '7', '8', '9'}))
  {
  }

  // One number of each network, and one of none.

  lemma VisaExample(number: string)
    requires number == "4111111111111111"
    ensures DetectCardNetwork(number) == Visa
  {
    assert AllDigits(number);
    DigitsHaveNoSeparator(number);
    NetworkByPrefix(number);
  }

  lemma MastercardExample(number: string)
    requires number == "5500000000000004"
    ensures DetectCardNetwork(number) == Mastercard
  {
    assert AllDigits(number);
    DigitsHaveNoSeparator(number);
    NetworkByPrefix(number);
  }

  lemma AmexExample(number: string)
    requires number == "340000000000009"
    ensures DetectCardNetwork(number) == Amex
  {
    assert AllDigits(number);
    DigitsHaveNoSeparator(number);
    NetworkByPrefix(number);
  }

  lemma RupayExample(number: string)
    requires number == "6521111111111117"
    ensures DetectCardNetwork(number) == Rupay
  {
    assert AllDigits(number);
    DigitsHaveNoSeparator(number);
    NetworkByPrefix(number);
  }

  lemma UnknownExample(number: string)
    requires number == "1234567890123456"
    ensures DetectCardNetwork(number) == Unknown
  {
    assert AllDigits(number);
    DigitsHaveNoSeparator(number);
    NetworkByPrefix(number);
  }

  lemma NetworkExamples(visa: string, mastercard: string, amex: string, rupay: string, other: string)
    requires visa == "4111111111111111" && mastercard == "5500000000000004"
    requires amex == "340000000000009" && rupay == "6521111111111117" && other == "1234567890123456"
    ensures DetectCardNetwork(visa) == Visa
    ensures DetectCardNetwork(mastercard) == Mastercard
    ensures DetectCardNetwork(amex) == Amex
    ensures DetectCardNetwork(rupay) == Rupay
    ensures DetectCardNetwork(other) == Unknown
  {
    VisaExample(visa);
    MastercardExample(mastercard);
    AmexExample(amex);
    RupayExample(rupay);
    UnknownExample(other);
  }

  // ---------------------------------------------------------------------------
  // Expiry
  // ---------------------------------------------------------------------------

  /** A calendar month number, as `getMonth() + 1` yields it. */
  type Month = m: int | 1 <= m <= 12 witness 1

  /** The current date as the expiry check reads it from the clock. */
  datatype YearMonth = YearMonth(year: int, month: Month)

  /** Two-digit years (any year below 100) are read as 20xx. */
  function NormalizeYear(year: int): int
  {
    if year < 100 then year + 2000 else year
  }

  /** Months counted from year 0, so that later months have larger numbers. */
  function MonthNumber(year: int, month: int): int
  {
    12 * year + month
  }

  /**
    * `validateCardExpiry` with the current year and month passed in: the card
    * is good through the whole of its expiry month.
    */
  function ValidateCardExpiry(month: int, year: int, today: YearMonth): (valid: bool)
    ensures valid <==> 1 <= month <= 12
                       && MonthNumber(NormalizeYear(year), month) >= MonthNumber(today.year, today.month)
  {
    if month < 1 || month > 12 then false
    else
      var y := NormalizeYear(year);
      if y < today.year then false
      else if y == today.year && month < today.month then false
      else true
  }

  /** A card valid in some month stays valid for any later expiry month. */
  lemma ExpiryMonotone(month: int, year: int, laterMonth: int, laterYear: int, today: YearMonth)
    requires ValidateCardExpiry(month, year, today)
    requires 1 <= laterMonth <= 12
    requires MonthNumber(NormalizeYear(laterYear), laterMonth) >= MonthNumber(NormalizeYear(year), month)
    ensures ValidateCardExpiry(laterMonth, laterYear, today)
  {
  }

  /** A card valid today was valid on every earlier day as well. */
  lemma ExpiryValidEarlier(month: int, year: int, today: YearMonth, earlier: YearMonth)
    requires ValidateCardExpiry(month, year, today)
    requires MonthNumber(earlier.year, earlier.month) <= MonthNumber(today.year, today.month)
    ensures ValidateCardExpiry(month, year, earlier)
  {
  }

  lemma ExpiryExamples()
    ensures ValidateCardExpiry(6, 2025, YearMonth(2025, 6))
    ensures !ValidateCardExpiry(5, 2025, YearMonth(2025, 6))
    ensures ValidateCardExpiry(1, 2026, YearMonth(2025, 6))
    ensures ValidateCardExpiry(6, 25, YearMonth(2025, 6))
    ensures !ValidateCardExpiry(13, 2030, YearMonth(2025, 6))
  {
  }
}
