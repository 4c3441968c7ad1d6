/** The height field of the new-profile form: text such as `5'10` (or with the
    typographic apostrophe, `5’10`) converted to a whole number of inches. */
module Height {
  import opened Wrappers

  /** An ASCII decimal digit. */
  predicate IsDigit(c: char) {
    '0' <= c <= '9'
  }

  /** The feet/inches separator: a straight apostrophe or U+2019. */
  predicate IsSeparator(c: char) {
    c == '\'' || c == '\U{2019}'
  }

  predicate AllDigits(s: string) {
    forall k :: 0 <= k < |s| ==> IsDigit(s[k])
  }

  function DigitValue(c: char): (d: nat)
    requires IsDigit(c)
    ensures d <= 9
  {
    c as int - '0' as int
  }

  function DigitChar(d: nat): (c: char)
    requires d <= 9
    ensures IsDigit(c) && DigitValue(c) == d
  {
    ('0' as int + d) as char
  }

  /** The decimal value of a digit string read most significant digit first;
      leading zeros are allowed, so `007` reads as 7. */
  function NumberValue(s: string): nat
    requires AllDigits(s)
    decreases |s|
  {
    if |s| == 0 then 0 else NumberValue(s[..|s| - 1]) * 10 + DigitValue(s[|s| - 1])
  }

  /** The shortest decimal spelling of n (`0` for zero). */
  function Digits(n: nat): (s: string)
    ensures |s| > 0 && AllDigits(s)
  {
    if n < 10 then [DigitChar(n)] else Digits(n / 10) + [DigitChar(n % 10)]
  }

  /** Reading back the spelling of a number gives the number. */
  lemma {:induction false} NumberValueOfDigits(n: nat)
    ensures NumberValue(Digits(n)) == n
  {
    var s := Digits(n);
    if n < 10 {
      assert s[..|s| - 1] == [];
    } else {
      assert s[..|s| - 1] == Digits(n / 10);
      NumberValueOfDigits(n / 10);
    }
  }

  /** Length of the run of digits at the front of s. */
  function DigitRun(s: string): (i: nat)
    ensures i <= |s|
    ensures AllDigits(s[..i])
    ensures i < |s| ==> !IsDigit(s[i])
  {
    if |s| == 0 || !IsDigit(s[0]) then 0
    else
      var j := DigitRun(s[1..]);
      assert s[..1 + j] == [s[0]] + s[1..][..j];
      1 + j
  }

  /** s is a non-empty digit run, a separator at index i, then a non-empty
      digit run reaching the end of s. */
  predicate SplitsAt(s: string, i: int) {
    0 < i < |s| - 1 && AllDigits(s[..i]) && IsSeparator(s[i]) && AllDigits(s[i + 1..])
  }

  /** A well-formed height has only one split point: the first non-digit. */
  lemma SplitIsUnique(s: string, i: int)
    requires SplitsAt(s, i)
    ensures i == DigitRun(s)
  {
  }

  /** The height in inches, or None when the text does not have the
      `<digits><apostrophe><digits>` shape. The inches part is not bounded by
      12, so `5'15` is accepted as 75 inches. */
  function ParseHeight(s: string): (r: Option<nat>)
    ensures r.Some? <==> exists i :: SplitsAt(s, i)
    ensures forall i :: SplitsAt(s, i) ==>
              r == Some(NumberValue(s[..i]) * 12 + NumberValue(s[i + 1..]))
  {
    var i := DigitRun(s);
    if SplitsAt(s, i) then Some(NumberValue(s[..i]) * 12 + NumberValue(s[i + 1..]))
    else
      assert forall k :: SplitsAt(s, k) ==> k == i by {
        forall k | SplitsAt(s, k) ensures k == i { SplitIsUnique(s, k); }
      }
      None
  }

  /** The canonical way to write a height: feet, a straight apostrophe, inches. */
  function FormatHeight(feet: nat, inches: nat): string {
    Digits(feet) + "'" + Digits(inches)
  }

  /** Parsing a written-out height recovers feet * 12 + inches. */
  lemma ParseFormatRoundTrip(feet: nat, inches: nat)
    ensures ParseHeight(FormatHeight(feet, inches)) == Some(feet * 12 + inches)
  {
    var f := Digits(feet);
    var s := FormatHeight(feet, inches);
    assert s[..|f|] == f;
    assert s[|f| + 1..] == Digits(inches);
    assert SplitsAt(s, |f|);
    NumberValueOfDigits(feet);
    NumberValueOfDigits(inches);
  }

  /** Worked input: the usual spelling. */
  lemma AcceptsStraightApostrophe()
    ensures ParseHeight("5'10") == Some(70)
  {
  }

  /** Worked input: inches above 11 are not carried into feet or refused. */
  lemma AcceptsUnboundedInches()
    ensures ParseHeight("5'15") == Some(75)
  {
  }

  /** Worked input: the typographic apostrophe U+2019 is accepted too. */
  lemma AcceptsTypographicApostrophe()
    ensures ParseHeight("5\U{2019}10") == Some(70)
  {
  }

  /** Worked inputs that the parser rejects: a missing part, a missing or
      doubled separator, a trailing inch mark, spaces. */
  lemma RejectedExamples()
    ensures ParseHeight("") == None
    ensures ParseHeight("5'") == None
    ensures ParseHeight("'10") == None
    ensures ParseHeight("510") == None
    ensures ParseHeight("5''10") == None
    ensures ParseHeight("5'10\"") == None
    ensures ParseHeight("5' 10") == None
  {
    assert !IsDigit('\'') && !IsDigit('"') && !IsDigit(' ');
    assert DigitRun("5''10") == 1 by { assert "5''10"[1] == '\''; }
    assert !SplitsAt("5''10", 1) by { assert "5''10"[2..][0] == '\''; }
    assert DigitRun("5'10\"") == 1 by { assert "5'10\""[1] == '\''; }
    assert !SplitsAt("5'10\"", 1) by { assert "5'10\""[2..][2] == '"'; }
    assert DigitRun("5' 10") == 1 by { assert "5' 10"[1] == '\''; }
    assert !SplitsAt("5' 10", 1) by { assert "5' 10"[2..][0] == ' '; }
    assert DigitRun("510") == 3;
  }
}
