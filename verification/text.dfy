/**
 * The few string operations the source relies on: `toLowerCase`, `includes`,
 * `startsWith`, and the decimal rendering of a whole number inside a
 * template string.
 */
module Text {

  /** `toLowerCase` on one character; only the ASCII letters A-Z change. */
  function LowerChar(c: char): char {
    if 'A' <= c <= 'Z' then (c as int + 32) as char else c
  }

  /** `toLowerCase` on a string, character by character. */
  function Lower(s: string): (r: string)
    ensures |r| == |s|
    ensures forall i :: 0 <= i < |s| ==> r[i] == LowerChar(s[i])
    ensures forall i :: 0 <= i < |s| ==> !('A' <= r[i] <= 'Z')
  {
    seq(|s|, i requires 0 <= i < |s| => LowerChar(s[i]))
  }

  /** `part` occurs in `text` starting at index `i`. */
  predicate MatchesAt(text: string, part: string, i: int) {
    0 <= i && i + |part| <= |text| && text[i..i + |part|] == part
  }

  /** `text.includes(part)`: a literal substring test, no word boundaries. */
  predicate Contains(text: string, part: string) {
    exists i | 0 <= i <= |text| - |part| :: MatchesAt(text, part, i)
  }

  /** `s.startsWith(prefix)`. */
  predicate StartsWith(s: string, prefix: string) {
    |prefix| <= |s| && s[..|prefix|] == prefix
  }

  /** A character-by-character match at `i` is an occurrence. */
  lemma OccursAt(text: string, part: string, i: nat)
    requires i + |part| <= |text|
    requires forall j :: 0 <= j < |part| ==> text[i + j] == part[j]
    ensures Contains(text, part)
  {
    assert text[i..i + |part|] == part;
    assert MatchesAt(text, part, i);
  }

  /** Every character of a contained string occurs in the containing one. */
  lemma ContainedCharsOccur(text: string, part: string)
    ensures Contains(text, part) ==> forall c :: c in part ==> c in text
  {
    if Contains(text, part) {
      var i :| 0 <= i <= |text| - |part| && MatchesAt(text, part, i);
      forall c | c in part ensures c in text {
        var j :| 0 <= j < |part| && part[j] == c;
        assert text[i..i + |part|][j] == text[i + j];
      }
    }
  }

  /** A string holding a letter the text lacks does not occur in it. */
  lemma AbsentLetter(text: string, part: string, c: char)
    requires c in part && c !in text
    ensures !Contains(text, part)
  {
    ContainedCharsOccur(text, part);
  }

  /**
   * A string without spaces that occurs in `a + " " + b` occurs in `a` or in
   * `b`: no match can straddle the space.
   */
  lemma ContainsAcrossSpace(a: string, b: string, part: string)
    ensures Contains(a + " " + b, part) ==> ' ' in part || Contains(a, part) || Contains(b, part)
  {
    var t := a + " " + b;
    if Contains(t, part) {
      var i :| 0 <= i <= |t| - |part| && MatchesAt(t, part, i);
      var n := |a|;
      if i + |part| <= n {
        assert t[i..i + |part|] == a[i..i + |part|];
        assert MatchesAt(a, part, i);
      } else if i > n {
        assert t[i..i + |part|] == b[i - n - 1..i - n - 1 + |part|];
        assert MatchesAt(b, part, i - n - 1);
      } else {
        assert t[i..i + |part|][n - i] == t[n] == ' ';
      }
    }
  }

  /**
   * A string without spaces is absent from `a + " " + b` when each side
   * lacks one of its letters.
   */
  lemma AbsentOnBothSides(a: string, b: string, part: string, ca: char, cb: char)
    requires ' ' !in part
    requires ca in part && ca !in a
    requires cb in part && cb !in b
    ensures !Contains(a + " " + b, part)
  {
    ContainsAcrossSpace(a, b, part);
    AbsentLetter(a, part, ca);
    AbsentLetter(b, part, cb);
  }

  /** The digit character for a value below ten. */
  function Digit(d: nat): char
    requires d < 10
  {
    ('0' as int + d) as char
  }

  /** The value of a digit character (non-digits count as 0). */
  function DigitValue(c: char): nat {
    if '0' <= c <= '9' then c as int - '0' as int else 0
  }

  predicate IsDigit(c: char) {
    '0' <= c <= '9'
  }

  /** A whole number written in decimal, as a template string renders it. */
  function Decimal(n: nat): (s: string)
    ensures |s| >= 1
    ensures forall i :: 0 <= i < |s| ==> IsDigit(s[i])
  {
    if n < 10 then [Digit(n)] else Decimal(n / 10) + [Digit(n % 10)]
  }

  /** Reads a string of digits back as a number. */
  function ParseDecimal(s: string): nat {
    if s == [] then 0 else ParseDecimal(s[..|s| - 1]) * 10 + DigitValue(s[|s| - 1])
  }

  /** Reading a rendered number gives the number back. */
  lemma {:induction false} DecimalRoundTrip(n: nat)
    ensures ParseDecimal(Decimal(n)) == n
  {
    var s := Decimal(n);
    if n < 10 {
      assert s[..|s| - 1] == [];
    } else {
      assert s[..|s| - 1] == Decimal(n / 10);
      DecimalRoundTrip(n / 10);
    }
  }

  /** The index of the first `c` in `s`, or `|s|` when there is none. */
  function IndexOf(s: string, c: char): (k: nat)
    ensures k <= |s|
    ensures k < |s| ==> s[k] == c
    ensures forall j :: 0 <= j < k ==> s[j] != c
  {
    if s == [] then 0 else if s[0] == c then 0 else 1 + IndexOf(s[1..], c)
  }
}
