/** Blanks, decimal numerals and separated lists: the text both parsers read and both printers
    write. */
module Decimals {

  /** isspace in the C locale. */
  predicate IsSpace(c: char) {
    c == ' ' || c == '\t' || c == '\n' || c == '\U{000B}' || c == '\U{000C}' || c == '\r'
  }

  predicate IsDigit(c: char) {
    '0' <= c <= '9'
  }

  function DigitOf(n: nat): (c: char)
    requires n < 10
    ensures IsDigit(c)
  {
    "0123456789"[n]
  }

  function DigitValue(c: char): (n: nat)
    requires IsDigit(c)
    ensures n < 10
  {
    c as int - '0' as int
  }

  predicate AllDigits(s: string) {
    forall i :: 0 <= i < |s| ==> IsDigit(s[i])
  }

  /** How many digits s begins with. */
  function Digits(s: string): (n: nat)
    ensures n <= |s| && AllDigits(s[..n]) && (n < |s| ==> !IsDigit(s[n]))
  {
    if s == "" || !IsDigit(s[0]) then 0 else 1 + Digits(s[1..])
  }

  lemma RunIs(s: string, d: nat)
    requires d <= |s| && AllDigits(s[..d]) && (d < |s| ==> !IsDigit(s[d]))
    ensures Digits(s) == d
  {
    var n := Digits(s);
    assert forall i :: 0 <= i < d ==> s[..d][i] == s[i];
    assert forall i :: 0 <= i < n ==> s[..n][i] == s[i];
  }

  /** The number a string of digits reads as. */
  function Number(s: string): nat
    requires AllDigits(s)
  {
    if s == "" then 0 else 10 * Number(s[..|s| - 1]) + DigitValue(s[|s| - 1])
  }

  /** The shortest numeral for n, as printf writes it. */
  function Numeral(n: nat): (s: string)
    ensures |s| > 0 && AllDigits(s)
  {
    if n < 10 then [DigitOf(n)] else Numeral(n / 10) + [DigitOf(n % 10)]
  }

  lemma DigitBack(n: nat)
    requires n < 10
    ensures DigitValue(DigitOf(n)) == n
  {
  }

  lemma {:induction false} NumberOfNumeral(n: nat)
    ensures Number(Numeral(n)) == n
  {
    DigitBack(n % 10);
    hide DigitOf, DigitValue;
    if n >= 10 {
      NumberOfNumeral(n / 10);
      assert Numeral(n)[..|Numeral(n)| - 1] == Numeral(n / 10);
    } else {
      assert Numeral(n)[..0] == "";
    }
  }

  /** Reading one more digit. */
  lemma NumberMore(s: string, c: char)
    requires AllDigits(s) && IsDigit(c)
    ensures AllDigits(s + [c]) && Number(s + [c]) == 10 * Number(s) + DigitValue(c)
  {
    assert (s + [c])[..|s|] == s;
  }

  lemma {:induction false} NumberGrows(s: string, t: string)
    requires AllDigits(s) && AllDigits(t)
    ensures AllDigits(s + t) && Number(s) <= Number(s + t)
  {
    if t == "" {
      assert s + t == s;
    } else {
      NumberGrows(s, t[..|t| - 1]);
      assert (s + t)[..|s + t| - 1] == s + t[..|t| - 1];
    }
  }

  // ----- separated lists -----

  /** The pieces of s between the separators. */
  function Split(s: string, sep: char): (r: seq<string>)
    ensures |r| > 0
  {
    if s == "" then [""]
    else if s[|s| - 1] == sep then Split(s[..|s| - 1], sep) + [""]
    else
      var r := Split(s[..|s| - 1], sep);
      r[..|r| - 1] + [r[|r| - 1] + [s[|s| - 1]]]
  }

  function Join(parts: seq<string>, sep: char): string
    requires |parts| > 0
  {
    if |parts| == 1 then parts[0] else Join(parts[..|parts| - 1], sep) + [sep] + parts[|parts| - 1]
  }

  lemma {:induction false} SplitAppend(s: string, t: string, sep: char)
    requires sep !in t
    ensures var r := Split(s, sep); Split(s + t, sep) == r[..|r| - 1] + [r[|r| - 1] + t]
  {
    var r := Split(s, sep);
    if t == "" {
      assert s + t == s && r[|r| - 1] + t == r[|r| - 1];
    } else {
      var n := |t| - 1;
      SplitAppend(s, t[..n], sep);
      assert (s + t)[..|s + t| - 1] == s + t[..n];
      assert (s + t)[|s + t| - 1] == t[n];
      assert r[|r| - 1] + t == r[|r| - 1] + t[..n] + [t[n]];
    }
  }

  /** Splitting takes apart what joining put together. */
  lemma {:induction false} SplitJoin(parts: seq<string>, sep: char)
    requires |parts| > 0 && forall i :: 0 <= i < |parts| ==> sep !in parts[i]
    ensures Split(Join(parts, sep), sep) == parts
  {
    var last := |parts| - 1;
    if last == 0 {
      SplitAppend("", parts[0], sep);
      assert "" + parts[0] == parts[0];
    } else {
      var s := Join(parts[..last], sep);
      SplitJoin(parts[..last], sep);
      assert (s + [sep])[..|s|] == s;
      SplitAppend(s + [sep], parts[last], sep);
      assert "" + parts[last] == parts[last];
      assert parts[..last] + [parts[last]] == parts;
    }
  }
}
