/**
 Notes attached to a case. The case list shows a short display text for the
 most recent note: its first 44 characters, cut with no regard for word
 boundaries and with no ellipsis added.
 */
module Notes {

  const DisplayLength: nat := 44

  /** The display text of a note: the first `DisplayLength` characters of
      its text, or the whole text when it is shorter. */
  function DisplayText(text: string): (r: string)
    ensures |r| <= DisplayLength
    ensures |r| <= |text| && r == text[..|r|]
    ensures |text| >= DisplayLength ==> |r| == DisplayLength
    ensures |text| <= DisplayLength ==> r == text
  {
    if |text| <= DisplayLength then text else text[..DisplayLength]
  }

  /** The display text is the longest prefix of the note within the limit:
      any prefix no longer than `DisplayLength` is a prefix of it. */
  lemma DisplayTextIsLongestPrefix(text: string, p: string)
    requires |p| <= DisplayLength && p <= text
    ensures p <= DisplayText(text)
  {}

  /** Shortening an already shortened text changes nothing. */
  lemma DisplayTextIdempotent(text: string)
    ensures DisplayText(DisplayText(text)) == DisplayText(text)
  {}

  /** The character for a decimal digit. */
  function DigitChar(d: nat): (c: char)
    requires d < 10
    ensures '0' <= c <= '9'
    ensures c as int - '0' as int == d
  {
    "0123456789"[d]
  }

  /** All characters of `s` are decimal digits. */
  predicate AllDigits(s: string) {
    forall i :: 0 <= i < |s| ==> '0' <= s[i] <= '9'
  }

  /** The number a string of decimal digits denotes, most significant first. */
  function DigitsValue(s: string): nat
    requires AllDigits(s)
  {
    if |s| == 0 then 0
    else DigitsValue(s[..|s| - 1]) * 10 + (s[|s| - 1] as int - '0' as int)
  }

  /** The decimal spelling of `n`, as Ruby's `Integer#to_s` writes it: digits
      only, and no leading zero except for zero itself. */
  function DecimalString(n: nat): (s: string)
    ensures 1 <= |s| && AllDigits(s)
    ensures (s[0] == '0') <==> n == 0
    decreases n
  {
    if n < 10 then [DigitChar(n)] else DecimalString(n / 10) + [DigitChar(n % 10)]
  }

  /** The spelling denotes the number spelled. */
  lemma {:induction false} DecimalStringValue(n: nat)
    ensures DigitsValue(DecimalString(n)) == n
    decreases n
  {
    if n >= 10 {
      var s := DecimalString(n);
      assert s[..|s| - 1] == DecimalString(n / 10);
      DecimalStringValue(n / 10);
    }
  }

  /** The decimal spellings of `lo`, `lo + 1`, ..., `hi` written one after
      another, as `(lo..hi).map(&:to_s).join('')` builds them. */
  function JoinedRange(lo: nat, hi: nat): (s: string)
    decreases hi + 1 - lo
  {
    if lo > hi then "" else DecimalString(lo) + JoinedRange(lo + 1, hi)
  }

  /** Every number in the range contributes at least one character. */
  lemma {:induction false} JoinedRangeLength(lo: nat, hi: nat)
    requires lo <= hi + 1
    ensures |JoinedRange(lo, hi)| >= hi + 1 - lo
    decreases hi + 1 - lo
  {
    if lo <= hi {
      JoinedRangeLength(lo + 1, hi);
    }
  }

  /** The note text the display test creates: the numbers 1 to 100 joined. */
  function HundredNumbers(): (s: string)
  {
    JoinedRange(1, 100)
  }

  /** The display text of that note has exactly 44 characters and begins
      with "1234". */
  lemma HundredNumbersDisplay()
    ensures |DisplayText(HundredNumbers())| == DisplayLength
    ensures "1234" <= DisplayText(HundredNumbers())
  {
    var s5 := JoinedRange(5, 100);
    JoinedRangeLength(5, 100);
    assert JoinedRange(4, 100) == "4" + s5;
    assert JoinedRange(3, 100) == "3" + ("4" + s5);
    assert JoinedRange(2, 100) == "2" + ("3" + ("4" + s5));
    assert HundredNumbers() == "1234" + s5;
  }
}
