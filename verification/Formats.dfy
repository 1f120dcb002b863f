/**
  The input formats the passenger validators test with regular expressions:
  passport series and number, Russian mobile phone, e-mail address and the
  birth-certificate number, each stated as a predicate over characters.
 */
module Formats {
  import opened Text

  /** `/^\d{n}$/`. */
  predicate DigitsExactly(s: string, n: nat) {
    |s| == n && AllDigits(s)
  }

  /** `/^\+7\d{10}$/`. */
  predicate PhoneOk(s: string) {
    |s| == 12 && s[0] == '+' && s[1] == '7' && AllDigits(s[2..])
  }

  /** `[^\s@]+` without the length bound. */
  predicate NoSpaceOrAt(s: string) {
    forall i :: 0 <= i < |s| ==> !IsSpace(s[i]) && s[i] != '@'
  }

  /** `/^[^\s@]+@[^\s@]+\.[^\s@]+$/`: some `@` at `i` and some `.` at `j` split
      the string into three non-empty runs free of white space and `@`. */
  predicate EmailOk(s: string) {
    exists i, j | 0 < i && i + 1 < j < |s| - 1 ::
      s[i] == '@' && s[j] == '.' && NoSpaceOrAt(s[..i]) && NoSpaceOrAt(s[i + 1..j]) && NoSpaceOrAt(s[j + 1..])
  }

  /** An address has exactly one `@`, preceded by something. */
  lemma EmailHasOneAt(s: string, i: int)
    requires 0 < i < |s| && s[i] == '@' && NoSpaceOrAt(s[..i]) && NoSpaceOrAt(s[i + 1..])
    ensures forall k :: 0 <= k < |s| && s[k] == '@' ==> k == i
  {
    forall k | 0 <= k < |s| && k != i ensures s[k] != '@' {
      if k < i {
        assert s[..i][k] == s[k];
      } else {
        assert s[i + 1..][k - i - 1] == s[k];
      }
    }
  }

  /** Roman-numeral letters, `[IVXLCDM]` under the `i` flag. */
  predicate RomanLetterAnyCase(c: char) {
    c in "IVXLCDMivxlcdm"
  }

  /** `[IVX]`, case-sensitive. */
  predicate RomanLetterIVX(c: char) {
    c in "IVX"
  }

  /** `[А-Я]` under the `i` flag: the capital range, its lower-case partners
      а-я, and the historic letters U+1C80–U+1C86 whose upper case lies in
      the range. */
  predicate CyrillicCapitalAnyCase(c: char) {
    ('А' <= c <= 'я') || ('\U{1C80}' <= c <= '\U{1C86}')
  }

  /** `[А-Я]`, case-sensitive. */
  predicate CyrillicCapital(c: char) {
    'А' <= c <= 'Я'
  }

  /** `/^R+-LL-\d{6}$/` for letter classes `R` and `L`, read from the end:
      six digits, a dash, two letters, a dash, and a non-empty run of `R`. */
  predicate CertificateShape(s: string, roman: char -> bool, letter: char -> bool) {
    && |s| >= 11
    && (forall i :: 0 <= i < |s| - 10 ==> roman(s[i]))
    && s[|s| - 10] == '-'
    && letter(s[|s| - 9]) && letter(s[|s| - 8])
    && s[|s| - 7] == '-'
    && AllDigits(s[|s| - 6..])
  }

  /** The regular expression's own reading: the first group ends at some `k`. */
  predicate CertificateSplit(s: string, roman: char -> bool, letter: char -> bool, k: int) {
    && 1 <= k && k + 10 == |s|
    && (forall i :: 0 <= i < k ==> roman(s[i]))
    && s[k] == '-' && letter(s[k + 1]) && letter(s[k + 2]) && s[k + 3] == '-'
    && AllDigits(s[k + 4..])
  }

  /** The end-anchored reading and the split reading accept the same strings,
      provided the first class excludes `-` (both do). */
  lemma CertificateReadings(s: string, roman: char -> bool, letter: char -> bool)
    requires !roman('-')
    ensures CertificateShape(s, roman, letter) <==> exists k :: CertificateSplit(s, roman, letter, k)
  {
    if CertificateShape(s, roman, letter) {
      assert CertificateSplit(s, roman, letter, |s| - 10);
    }
  }

  /** The case-sensitive certificate format is stricter than the
      case-insensitive one. */
  lemma CertificateStrictImpliesLoose(s: string)
    requires CertificateShape(s, RomanLetterIVX, CyrillicCapital)
    ensures CertificateShape(s, RomanLetterAnyCase, CyrillicCapitalAnyCase)
  {
  }
}
