/**
 * The few standard-library string and integer routines the parser relies on:
 * `str::parse::<usize>`, `usize::to_string`, `str::contains` with a literal
 * pattern and `str::replace(pattern, "")`.
 */
module Text {
  import opened Wrappers

  /** Largest value of `usize` on the 64-bit targets the application is built for. */
  const USIZE_MAX: nat := 0xFFFF_FFFF_FFFF_FFFF

  predicate IsDigit(c: char) {
    '0' <= c <= '9'
  }

  predicate AllDigits(s: string) {
    forall i :: 0 <= i < |s| ==> IsDigit(s[i])
  }

  function DigitValue(c: char): nat
    requires IsDigit(c)
  {
    c as int - '0' as int
  }

  function DigitChar(d: nat): (c: char)
    requires d < 10
    ensures IsDigit(c) && DigitValue(c) == d
  {
    ('0' as int + d) as char
  }

  /** The value of a string of decimal digits, most significant digit first. */
  function DigitsValue(s: string): nat
    requires AllDigits(s)
    decreases |s|
  {
    if s == [] then 0 else DigitsValue(s[..|s| - 1]) * 10 + DigitValue(s[|s| - 1])
  }

  /**
   * The value of a string of decimal digits, scanned like `DigitsValue`, or
   * None as soon as a character is not a digit.
   */
  function DigitsOf(s: string): Option<nat>
    decreases |s|
  {
    if s == [] then Some(0)
    else if !IsDigit(s[|s| - 1]) then None
    else match DigitsOf(s[..|s| - 1])
      case None => None
      case Some(v) => Some(v * 10 + DigitValue(s[|s| - 1]))
  }

  /** The scan finds a value exactly for strings of digits, and that value is theirs. */
  lemma {:induction false} DigitsOfValue(s: string)
    ensures DigitsOf(s) == if AllDigits(s) then Some(DigitsValue(s)) else None
    decreases |s|
  {
    if s != [] {
      var p := s[..|s| - 1];
      DigitsOfValue(p);
      if AllDigits(s) {
        assert AllDigits(p) by {
          forall i | 0 <= i < |p| ensures IsDigit(p[i]) {
            assert p[i] == s[i];
          }
        }
      } else if IsDigit(s[|s| - 1]) {
        var i :| 0 <= i < |s| && !IsDigit(s[i]);
        assert p[i] == s[i];
      }
    }
  }

  /**
   * `str::parse::<usize>`: an optional leading `+`, then one or more ASCII
   * digits whose value fits in a `usize`; anything else is an error (None).
   */
  function ParseUsize(s: string): (r: Option<nat>)
    ensures r.Some? ==> r.value <= USIZE_MAX
  {
    var digits := if |s| > 0 && s[0] == '+' then s[1..] else s;
    if digits == [] then None
    else match DigitsOf(digits)
      case None => None
      case Some(v) => if v <= USIZE_MAX then Some(v) else None
  }

  /** `to_string` of an unsigned integer: its decimal digits without leading zeros. */
  function DecimalString(n: nat): (s: string)
    ensures s != [] && AllDigits(s)
    ensures |s| > 1 ==> s[0] != '0'
    decreases n
  {
    if n < 10 then [DigitChar(n)] else DecimalString(n / 10) + [DigitChar(n % 10)]
  }

  lemma {:induction false} DigitsValueOfDecimalString(n: nat)
    ensures DigitsValue(DecimalString(n)) == n
    decreases n
  {
    if n >= 10 {
      var s := DecimalString(n);
      DigitsValueOfDecimalString(n / 10);
      assert s[..|s| - 1] == DecimalString(n / 10);
    }
  }

  /** Parsing the decimal text of a value that fits in a `usize` gives that value back. */
  lemma ParseUsizeOfDecimalString(n: nat)
    requires n <= USIZE_MAX
    ensures ParseUsize(DecimalString(n)) == Some(n)
  {
    DigitsValueOfDecimalString(n);
    DigitsOfValue(DecimalString(n));
  }

  /** The decimal text of a value too large for a `usize` does not parse. */
  lemma ParseUsizeOverflow(n: nat)
    requires n > USIZE_MAX
    ensures ParseUsize(DecimalString(n)) == None
  {
    DigitsValueOfDecimalString(n);
    DigitsOfValue(DecimalString(n));
  }

  /** Text with a character other than a digit (a leading `+` aside) does not parse. */
  lemma ParseUsizeRejectsNonDigit(s: string, i: nat)
    requires i < |s| && !IsDigit(s[i]) && !(i == 0 && s[0] == '+')
    ensures ParseUsize(s) == None
  {
    var digits := if |s| > 0 && s[0] == '+' then s[1..] else s;
    DigitsOfValue(digits);
    if |s| > 0 && s[0] == '+' {
      assert !IsDigit(digits[i - 1]);
    } else {
      assert !IsDigit(digits[i]);
    }
  }

  /** `pat` occurs in `s` at position `i`. */
  predicate OccursAt(s: string, pat: string, i: nat) {
    i + |pat| <= |s| && s[i..i + |pat|] == pat
  }

  /** `str::contains` with a literal pattern. */
  predicate Contains(s: string, pat: string) {
    exists i: nat :: i + |pat| <= |s| && OccursAt(s, pat, i)
  }

  /**
   * `str::replace(pat, "")`: every non-overlapping occurrence of `pat`,
   * found left to right, removed.
   */
  function RemoveAll(s: string, pat: string): (r: string)
    requires pat != []
    ensures |r| <= |s|
    decreases |s|
  {
    if |s| < |pat| then s
    else if s[..|pat|] == pat then RemoveAll(s[|pat|..], pat)
    else [s[0]] + RemoveAll(s[1..], pat)
  }

  /** An occurrence of the pattern makes removal shorten the text. */
  lemma {:induction false} RemoveAllShortens(s: string, pat: string, i: nat)
    requires pat != [] && OccursAt(s, pat, i)
    ensures |RemoveAll(s, pat)| < |s|
    decreases |s|
  {
    if s[..|pat|] != pat {
      assert i != 0;
      assert s[1..][i - 1..i - 1 + |pat|] == s[i..i + |pat|];
      RemoveAllShortens(s[1..], pat, i - 1);
    }
  }

  /** Without an occurrence, removal leaves the text as it is. */
  lemma {:induction false} RemoveAllNoOccurrence(s: string, pat: string)
    requires pat != [] && !Contains(s, pat)
    ensures RemoveAll(s, pat) == s
    decreases |s|
  {
    if |s| >= |pat| {
      assert !OccursAt(s, pat, 0);
      forall i: nat | i + |pat| <= |s[1..]|
        ensures !OccursAt(s[1..], pat, i)
      {
        assert s[1..][i..i + |pat|] == s[i + 1..i + 1 + |pat|];
        assert !OccursAt(s, pat, i + 1);
      }
      RemoveAllNoOccurrence(s[1..], pat);
      assert s == [s[0]] + s[1..];
    }
  }

  /** Removal changes the text exactly when the pattern occurs in it, and then shortens it. */
  lemma RemoveAllUnchangedIff(s: string, pat: string)
    requires pat != []
    ensures RemoveAll(s, pat) == s <==> !Contains(s, pat)
    ensures Contains(s, pat) ==> |RemoveAll(s, pat)| < |s|
  {
    if Contains(s, pat) {
      var i: nat :| i + |pat| <= |s| && OccursAt(s, pat, i);
      RemoveAllShortens(s, pat, i);
    } else {
      RemoveAllNoOccurrence(s, pat);
    }
  }

  /** A leading occurrence of the pattern is removed and the rest is processed alone. */
  lemma RemoveAllLeading(pat: string, s: string)
    requires pat != []
    ensures RemoveAll(pat + s, pat) == RemoveAll(s, pat)
  {
    assert (pat + s)[..|pat|] == pat;
    assert (pat + s)[|pat|..] == s;
  }
}
