/**
  Character classes and string helpers with the meaning JavaScript gives them:
  the `\s` / `String.prototype.trim` white-space set, the ASCII-only `\d`
  digit class, lower-casing, substring and prefix tests, and the decimal
  rendering of integers (`Number.prototype.toString`).
 */
module Text {
  import opened Seqs

  /** The characters JavaScript's `\s` class and `trim()` treat as white space
      (WhiteSpace and LineTerminator of ECMA-262). */
  predicate IsSpace(c: char) {
    || c == '\t' || c == '\n' || c == '\U{B}' || c == '\U{C}' || c == '\r'
    || c == ' ' || c == '\U{A0}' || c == '\U{1680}'
    || ('\U{2000}' <= c <= '\U{200A}')
    || c == '\U{2028}' || c == '\U{2029}' || c == '\U{202F}' || c == '\U{205F}'
    || c == '\U{3000}' || c == '\U{FEFF}'
  }

  /** The regular-expression class `\d`: ASCII digits only. */
  predicate IsDigit(c: char) {
    '0' <= c <= '9'
  }

  predicate AllDigits(s: string) {
    forall i :: 0 <= i < |s| ==> IsDigit(s[i])
  }

  /** A string that `trim()` reduces to the empty string. */
  predicate IsBlank(s: string) {
    forall i :: 0 <= i < |s| ==> IsSpace(s[i])
  }

  function TrimStart(s: string): (r: string)
    ensures |r| <= |s| && r == s[|s| - |r|..]
    ensures |r| > 0 ==> !IsSpace(r[0])
    ensures IsBlank(s[..|s| - |r|])
  {
    if |s| > 0 && IsSpace(s[0]) then TrimStart(s[1..]) else s
  }

  function TrimEnd(s: string): (r: string)
    ensures |r| <= |s| && r == s[..|r|]
    ensures |r| > 0 ==> !IsSpace(r[|r| - 1])
    ensures IsBlank(s[|r|..])
  {
    if |s| > 0 && IsSpace(s[|s| - 1]) then TrimEnd(s[..|s| - 1]) else s
  }

  /** `part` occurs in `s` starting at index `k`. */
  predicate OccursAt(s: string, part: string, k: int) {
    0 <= k <= |s| - |part| && s[k..k + |part|] == part
  }

  /** `String.prototype.trim`: the infix left once white space is stripped
      from both ends; everything before and after it is white space. */
  function Trim(s: string): (r: string)
    ensures var k := LeadingBlank(s);
      (OccursAt(s, r, k) && (forall i :: 0 <= i < k ==> IsSpace(s[i])) &&
       (forall i :: k + |r| <= i < |s| ==> IsSpace(s[i])))
    ensures |r| > 0 ==> !IsSpace(r[0]) && !IsSpace(r[|r| - 1])
    ensures r == [] <==> IsBlank(s)
  {
    TrimIsInfix(s);
    TrimLeftMargin(s);
    TrimRightMargin(s);
    TrimEndsNotBlank(s);
    TrimEnd(TrimStart(s))
  }

  /** How many white-space characters `trim` strips from the start. */
  function LeadingBlank(s: string): (n: nat)
    ensures n <= |s| && IsBlank(s[..n])
    ensures n < |s| ==> !IsSpace(s[n])
  {
    |s| - |TrimStart(s)|
  }

  /** What trimming cuts off at the start is white space. */
  lemma TrimLeftMargin(s: string)
    ensures forall i :: 0 <= i < LeadingBlank(s) ==> IsSpace(s[i])
  {
    var k := LeadingBlank(s);
    forall i | 0 <= i < k
      ensures IsSpace(s[i])
    {
      assert s[..k][i] == s[i];
    }
  }

  /** What trimming cuts off at the end is white space. */
  lemma TrimRightMargin(s: string)
    ensures var k, r := LeadingBlank(s), TrimEnd(TrimStart(s));
      k + |r| <= |s| && forall i :: k + |r| <= i < |s| ==> IsSpace(s[i])
  {
    var a := TrimStart(s);
    BlankTail(s, |s| - |a|, a, |TrimEnd(a)|);
  }

  /** A blank tail of a suffix of `s` is a blank tail of `s`. */
  lemma BlankTail(s: string, k: nat, a: string, n: nat)
    requires k <= |s| && a == s[k..] && n <= |a| && IsBlank(a[n..])
    ensures k + n <= |s| && forall i :: k + n <= i < |s| ==> IsSpace(s[i])
  {
    forall i | k + n <= i < |s|
      ensures IsSpace(s[i])
    {
      assert a[n..][i - k - n] == s[i];
    }
  }

  /** The trimmed text neither starts nor ends with white space. */
  lemma TrimEndsNotBlank(s: string)
    ensures var r := TrimEnd(TrimStart(s)); |r| > 0 ==> !IsSpace(r[0]) && !IsSpace(r[|r| - 1])
  {
    var a := TrimStart(s);
    var r := TrimEnd(a);
    if |r| > 0 {
      assert r[0] == a[0];
    }
  }



  /** Trimming a text padded with white space on both sides gives back the
      text, when it neither starts nor ends with white space itself. */
  lemma TrimPadded(x: string, m: string, y: string)
    requires IsBlank(x) && IsBlank(y)
    requires |m| > 0 ==> !IsSpace(m[0]) && !IsSpace(m[|m| - 1])
    ensures Trim(x + m + y) == m
  {
    var s := x + m + y;
    if |m| == 0 {
      assert s == x + y;
      BlankConcat(x, y);
    } else {
      PaddedIndices(x, m, y);
      TrimBetween(s, |x|, |x| + |m|);
    }
  }

  lemma PaddedIndices(x: string, m: string, y: string)
    requires IsBlank(x) && IsBlank(y) && |m| > 0
    ensures var s, a, b := x + m + y, |x|, |x| + |m|;
      b <= |s| && s[a..b] == m &&
      (forall i :: 0 <= i < a ==> IsSpace(s[i])) &&
      (forall i :: b <= i < |s| ==> IsSpace(s[i]))
  {
    var s, a, b := x + m + y, |x|, |x| + |m|;
    forall i | 0 <= i < a ensures IsSpace(s[i]) {
      assert s[i] == x[i];
    }
    forall i | b <= i < |s| ensures IsSpace(s[i]) {
      assert s[i] == y[i - b];
    }
  }

  /** The trim of a text whose white-space margins end at `a` and start at
      `b` is the text between. */
  lemma TrimBetween(s: string, a: int, b: int)
    requires 0 <= a < b <= |s|
    requires forall i :: 0 <= i < a ==> IsSpace(s[i])
    requires forall i :: b <= i < |s| ==> IsSpace(s[i])
    requires !IsSpace(s[a]) && !IsSpace(s[b - 1])
    ensures Trim(s) == s[a..b]
  {
    var r := Trim(s);
    assert r != [] by {
      assert !IsBlank(s);
    }
    MarginsMeet(s, r, LeadingBlank(s), a, b);
  }

  /** An infix with blank margins and non-blank ends, in a text whose
      margins end at `a` and start at `b`, is the text between. */
  lemma MarginsMeet(s: string, r: string, k: int, a: int, b: int)
    requires 0 <= a < b <= |s|
    requires forall i :: 0 <= i < a ==> IsSpace(s[i])
    requires forall i :: b <= i < |s| ==> IsSpace(s[i])
    requires !IsSpace(s[a]) && !IsSpace(s[b - 1])
    requires OccursAt(s, r, k) && IsBlank(s[..k]) && IsBlank(s[k + |r|..])
    requires |r| > 0 && !IsSpace(r[0]) && !IsSpace(r[|r| - 1])
    ensures r == s[a..b]
  {
    var e := k + |r|;
    assert r[0] == s[k] && r[|r| - 1] == s[e - 1];
    forall i | 0 <= i < k ensures IsSpace(s[i]) {
      assert s[..k][i] == s[i];
    }
    forall i | e <= i < |s| ensures IsSpace(s[i]) {
      assert s[e..][i - e] == s[i];
    }
    assert k == a && e == b;
  }

  /** A string that starts and ends with a non-space is its own trim. */
  lemma TrimUntouched(s: string)
    requires |s| > 0 && !IsSpace(s[0]) && !IsSpace(s[|s| - 1])
    ensures Trim(s) == s
  {
    assert TrimStart(s) == s;
  }

  /** A suffix of a suffix of `s` is a suffix of `s`. */
  lemma SuffixOfSuffix(s: string, a: string, j: int, n: int)
    requires 0 <= j <= |s| && a == s[j..] && 0 <= n <= |a|
    ensures s[j + n..] == a[n..]
  {
  }

  lemma {:induction false} TrimIsInfix(s: string)
    ensures OccursAt(s, TrimEnd(TrimStart(s)), LeadingBlank(s))
    ensures TrimEnd(TrimStart(s)) == [] <==> IsBlank(s)
  {
    TrimOccurs(s);
    var a := TrimStart(s);
    var j := |s| - |a|;
    TrimEndPrefix(a);
    if TrimEnd(a) == [] {
      BlankConcat(s[..j], a);
      assert s == s[..j] + a;
    } else {
      assert s[j] == a[0];
    }
  }

  lemma {:induction false} TrimOccurs(s: string)
    ensures OccursAt(s, TrimEnd(TrimStart(s)), |s| - |TrimStart(s)|)
  {
    var a := TrimStart(s);
    PrefixOfSuffix(s, a, TrimEnd(a), |s| - |a|);
  }

  /** A prefix of a suffix of `s` is a slice of `s`. */
  lemma PrefixOfSuffix(s: string, a: string, r: string, j: int)
    requires 0 <= j <= |s| && a == s[j..]
    requires |r| <= |a| && r == a[..|r|]
    ensures OccursAt(s, r, j)
  {
    var t := s[j..j + |r|];
    forall i | 0 <= i < |r| ensures t[i] == r[i] {
      assert t[i] == s[j + i] == a[i];
    }
  }

  lemma {:induction false} TrimEndPrefix(a: string)
    ensures TrimEnd(a) == [] ==> IsBlank(a)
    ensures TrimEnd(a) != [] ==> |a| > 0 && TrimEnd(a)[0] == a[0]
  {
    if TrimEnd(a) == [] {
      assert a[0..] == a;
    }
  }

  lemma BlankConcat(x: string, y: string)
    requires IsBlank(x) && IsBlank(y)
    ensures IsBlank(x + y)
  {
    forall i | 0 <= i < |x + y| ensures IsSpace((x + y)[i]) {
      if i >= |x| {
        assert (x + y)[i] == y[i - |x|];
      }
    }
  }

  /** `s.replace(/\s/g, '')`: the other characters of `s`, in order. */
  function RemoveSpaces(s: string): (r: string)
    ensures |r| <= |s|
    ensures forall i :: 0 <= i < |r| ==> !IsSpace(r[i])
    ensures (forall i :: 0 <= i < |s| ==> !IsSpace(s[i])) ==> r == s
  {
    if |s| == 0 then []
    else (if IsSpace(s[0]) then [] else [s[0]]) + RemoveSpaces(s[1..])
  }

  /** `s.replace(/\D/g, '')`: the ASCII digits of `s`, in order. */
  function DigitsOf(s: string): (r: string)
    ensures |r| <= |s|
    ensures AllDigits(r)
    ensures AllDigits(s) ==> r == s
  {
    if |s| == 0 then []
    else (if IsDigit(s[0]) then [s[0]] else []) + DigitsOf(s[1..])
  }

  /** `DigitsOf` keeps exactly the digits of `s`, in their order. */
  lemma {:induction false} DigitsInOrder(s: string)
    ensures DigitsOf(s) == Filter(s, IsDigit)
  {
    if |s| > 0 {
      DigitsInOrder(s[1..]);
    }
  }

  /** `RemoveSpaces` keeps exactly the other characters of `s`, in their
      order. */
  lemma {:induction false} SpacesRemovedInOrder(s: string)
    ensures RemoveSpaces(s) == Filter(s, c => !IsSpace(c))
  {
    if |s| > 0 {
      SpacesRemovedInOrder(s[1..]);
    }
  }

  lemma {:induction false} DigitsOfAppend(a: string, b: string)
    ensures DigitsOf(a + b) == DigitsOf(a) + DigitsOf(b)
  {
    if |a| == 0 {
      assert a + b == b;
    } else {
      var h := if IsDigit(a[0]) then [a[0]] else [];
      assert DigitsOf(a + b) == h + DigitsOf(a[1..] + b) by {
        assert (a + b)[0] == a[0];
        assert (a + b)[1..] == a[1..] + b;
      }
      DigitsOfAppend(a[1..], b);
      AppendAssoc(h, DigitsOf(a[1..]), DigitsOf(b));
    }
  }

  /** Digits are not white space: a run of digits has nothing to remove. */
  lemma RemoveSpacesDigits(s: string)
    requires AllDigits(s)
    ensures RemoveSpaces(s) == s
  {
    assert forall i :: 0 <= i < |s| ==> IsDigit(s[i]);
  }

  lemma {:induction false} RemoveSpacesAppend(a: string, b: string)
    ensures RemoveSpaces(a + b) == RemoveSpaces(a) + RemoveSpaces(b)
  {
    if |a| == 0 {
      assert a + b == b;
    } else {
      var h := if !IsSpace(a[0]) then [a[0]] else [];
      assert RemoveSpaces(a + b) == h + RemoveSpaces(a[1..] + b) by {
        assert (a + b)[0] == a[0];
        assert (a + b)[1..] == a[1..] + b;
      }
      RemoveSpacesAppend(a[1..], b);
      AppendAssoc(h, RemoveSpaces(a[1..]), RemoveSpaces(b));
    }
  }

  /** `toLowerCase` on the letters this application deals in: ASCII and the
      basic Cyrillic alphabet (А-Я, Ё). */
  function LowerChar(c: char): (r: char)
    ensures 'A' <= c <= 'Z' ==> r as int == c as int + 32
    ensures 'А' <= c <= 'Я' ==> r as int == c as int + 32
    ensures c == 'Ё' ==> r == 'ё'
    ensures !('A' <= c <= 'Z') && !('А' <= c <= 'Я') && c != 'Ё' ==> r == c
  {
    if 'A' <= c <= 'Z' then (c as int + 32) as char
    else if 'А' <= c <= 'Я' then (c as int + 32) as char
    else if c == 'Ё' then 'ё'
    else c
  }

  function Lower(s: string): (r: string)
    ensures |r| == |s|
    ensures forall i :: 0 <= i < |s| ==> r[i] == LowerChar(s[i])
  {
    seq(|s|, i requires 0 <= i < |s| => LowerChar(s[i]))
  }

  /** `s.includes(part)`. */
  predicate Contains(s: string, part: string) {
    exists k | 0 <= k <= |s| - |part| :: OccursAt(s, part, k)
  }

  /** `s.startsWith(prefix)`. */
  predicate StartsWith(s: string, prefix: string) {
    |prefix| <= |s| && s[..|prefix|] == prefix
  }

  function DigitChar(d: nat): (c: char)
    requires d < 10
    ensures IsDigit(c) && c as int - '0' as int == d
  {
    ('0' as int + d) as char
  }

  function DigitValue(c: char): (d: nat)
    requires IsDigit(c)
    ensures d < 10 && DigitChar(d) == c
  {
    c as int - '0' as int
  }

  /** The number a string of decimal digits denotes. */
  function DecimalValue(s: string): (n: nat)
    requires AllDigits(s)
    ensures n < Pow10(|s|)
  {
    if |s| == 0 then 0 else 10 * DecimalValue(s[..|s| - 1]) + DigitValue(s[|s| - 1])
  }

  function Pow10(k: nat): (p: nat)
    ensures p >= 1
  {
    if k == 0 then 1 else 10 * Pow10(k - 1)
  }

  /** `Math.floor(a / b)` for a positive divisor. */
  function FloorDiv(a: int, b: int): (q: int)
    requires b > 0
    ensures b * q <= a < b * q + b
  {
    a / b
  }

  /** JavaScript's `a % b` for a positive divisor: the remainder takes the
      sign of the dividend. */
  function JsRem(a: int, b: int): (r: int)
    requires b > 0
    ensures a >= 0 ==> 0 <= r < b && a == b * FloorDiv(a, b) + r
    ensures a < 0 ==> -b < r <= 0 && -a == b * FloorDiv(-a, b) - r
  {
    if a >= 0 then a % b else -((-a) % b)
  }

  /** `n.toString()` for a non-negative integer: its decimal digits, with no
      leading zero except for `0` itself. */
  function NatToString(n: nat): (r: string)
    ensures |r| > 0 && AllDigits(r)
    ensures r[0] == '0' ==> n == 0 && |r| == 1
    ensures DecimalValue(r) == n
  {
    if n < 10 then [DigitChar(n)]
    else
      var p := NatToString(n / 10);
      var r := p + [DigitChar(n % 10)];
      assert r[..|r| - 1] == p;
      r
  }

  /** `n.toString()` for any integer. */
  function IntToString(n: int): (r: string)
    ensures n >= 0 ==> r == NatToString(n)
    ensures n < 0 ==> r == "-" + NatToString(-n)
  {
    if n >= 0 then NatToString(n) else "-" + NatToString(-n)
  }
}
