/** Text primitives of the converter: indentation, decimal numbers as .NET
    prints them, and the re-indentation of a multi-line block. */
module Text {

  /** GetindentString: four spaces per nesting level. */
  function Indent(level: nat): (r: string)
    ensures |r| == 4 * level
    ensures forall i :: 0 <= i < |r| ==> r[i] == ' '
  {
    seq(4 * level, _ => ' ')
  }

  /** `sb.Append(str, indent)`: the line is prefixed with the indentation. */
  function Line(level: nat, s: string): string
  {
    Indent(level) + s
  }

  predicate IsDigit(c: char) { '0' <= c <= '9' }

  predicate AllDigits(s: string) { forall i :: 0 <= i < |s| ==> IsDigit(s[i]) }

  function DigitChar(d: nat): (c: char)
    requires d < 10
    ensures IsDigit(c) && c as int - '0' as int == d
  {
    ['0', '1', '2', '3', '4', '5', '6', '7', '8', '9'][d]
  }

  /** The decimal digits of a natural number, most significant first, no leading zero. */
  function NatToString(n: nat): (r: string)
    ensures |r| > 0 && AllDigits(r)
    ensures n > 0 ==> r[0] != '0'
    decreases n
  {
    if n < 10 then [DigitChar(n)] else NatToString(n / 10) + [DigitChar(n % 10)]
  }

  /** `int.ToString()` in the invariant culture. */
  function IntToString(i: int): (r: string)
    ensures |r| > 0
    ensures r[0] == '-' <==> i < 0
  {
    if i < 0 then "-" + NatToString(-i) else NatToString(i)
  }

  /** The value of a string of decimal digits; the partner of NatToString. */
  function ParseNat(s: string): nat
    requires AllDigits(s)
  {
    if s == [] then 0 else 10 * ParseNat(s[..|s| - 1]) + (s[|s| - 1] as int - '0' as int)
  }

  lemma {:induction false} NatToStringRoundTrip(n: nat)
    ensures ParseNat(NatToString(n)) == n
    decreases n
  {
    if n >= 10 {
      var s := NatToString(n / 10) + [DigitChar(n % 10)];
      assert s[..|s| - 1] == NatToString(n / 10);
      NatToStringRoundTrip(n / 10);
    }
  }

  /** Different numbers never print the same: names built from indices are unambiguous. */
  lemma IntToStringInjective(a: int, b: int)
    requires IntToString(a) == IntToString(b)
    ensures a == b
  {
    var s := IntToString(a);
    assert s[0] == '-' <==> b < 0;
    if a < 0 {
      DigitsAfterMinus(a);
      DigitsAfterMinus(b);
      NatToStringInjective(-a, -b);
    } else {
      NatToStringInjective(a, b);
    }
  }

  /** A negative number prints as a minus followed by the digits of its magnitude. */
  lemma DigitsAfterMinus(i: int)
    requires i < 0
    ensures IntToString(i)[1..] == NatToString(-i)
  {
    var digits := NatToString(-i);
    assert IntToString(i) == "-" + digits;
    assert ("-" + digits)[1..] == digits;
  }

  lemma NatToStringInjective(m: nat, n: nat)
    requires NatToString(m) == NatToString(n)
    ensures m == n
  {
    NatToStringRoundTrip(m);
    NatToStringRoundTrip(n);
  }

  /** The custom numeric format "00": at least two digits, a leading minus for negatives. */
  function Pad2(i: int): (r: string)
    ensures |r| >= 2
  {
    if i < 0 then "-" + Pad2Nat(-i) else Pad2Nat(i)
  }

  function Pad2Nat(n: nat): (r: string)
    ensures |r| >= 2 && AllDigits(r) && ParseNat(r) == n
  {
    NatToStringRoundTrip(n);
    var s := NatToString(n);
    if n < 10 then
      assert ("0" + s)[..1] == "0";
      "0" + s
    else
      s
  }

  /** `indentStr + s.Replace("\n", "\n" + indentStr)`: every line of `s` indented by `ind`. */
  function IndentBlock(s: string, ind: string): string
  {
    ind + ReplaceNewlines(s, ind)
  }

  function ReplaceNewlines(s: string, ind: string): (r: string)
    ensures |r| == |s| + |ind| * Count(s, '\n')
  {
    if s == [] then []
    else (if s[0] == '\n' then "\n" + ind else [s[0]]) + ReplaceNewlines(s[1..], ind)
  }

  function Count(s: string, c: char): nat
  {
    if s == [] then 0 else (if s[0] == c then 1 else 0) + Count(s[1..], c)
  }

  /** The partner of ReplaceNewlines: drop `k` characters after every newline. */
  function DropAfterNewlines(s: string, k: nat): string
    decreases |s|
  {
    if s == [] then []
    else if s[0] == '\n' then "\n" + DropAfterNewlines(if |s| - 1 <= k then [] else s[1 + k..], k)
    else [s[0]] + DropAfterNewlines(s[1..], k)
  }

  /** Re-indenting a sub-program's text loses nothing: removing the inserted
      indentation gives the text back. */
  lemma {:induction false} ReplaceNewlinesRoundTrip(s: string, ind: string)
    ensures DropAfterNewlines(ReplaceNewlines(s, ind), |ind|) == s
    decreases |s|
  {
    if s != [] {
      var rest := ReplaceNewlines(s[1..], ind);
      ReplaceNewlinesRoundTrip(s[1..], ind);
      if s[0] == '\n' {
        var r := "\n" + ind + rest;
        assert r[0] == '\n';
        if |r| - 1 <= |ind| {
          assert rest == [];
        } else {
          assert r[1 + |ind|..] == rest;
        }
      } else {
        var r := [s[0]] + rest;
        assert r[0] == s[0] && r[1..] == rest;
      }
    }
  }

  /** Text without line breaks is copied unchanged. */
  lemma {:induction false} ReplaceNewlinesNoBreak(s: string, ind: string)
    requires Count(s, '\n') == 0
    ensures ReplaceNewlines(s, ind) == s
    decreases |s|
  {
    if s != [] {
      ReplaceNewlinesNoBreak(s[1..], ind);
    }
  }
}
