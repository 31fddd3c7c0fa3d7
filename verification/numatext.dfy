/** The text of a NUMA policy: numbers, ranges and their lists, as numa.c reads them. */
module NumaText {
  import opened Types
  import opened Decimals

  /** The largest size_t. */
  const SIZE_MAX: nat := 0xFFFF_FFFF_FFFF_FFFF

  const MAX_RANGE_INDICES: nat := 0x10_0000

  predicate Blank(s: string) {
    forall i :: 0 <= i < |s| ==> IsSpace(s[i])
  }

  /** How many spaces s begins with. */
  function Spaces(s: string): (n: nat)
    ensures n <= |s| && Blank(s[..n]) && (n < |s| ==> !IsSpace(s[n]))
  {
    if s == "" || !IsSpace(s[0]) then 0 else 1 + Spaces(s[1..])
  }

  /** parse_uint: blanks, digits, blanks. With no digit at all the whole text must be blank, and
      reads as zero. */
  function ParseUint(s: string): Option<nat> {
    var w := Spaces(s);
    var d := Digits(s[w..]);
    if d == 0 then
      if Blank(s) then Some(0) else None
    else if Number(s[w..][..d]) <= SIZE_MAX && Blank(s[w..][d..]) then Some(Number(s[w..][..d]))
    else None
  }

  /** s is the digits from w to e between blanks, and they make v. */
  predicate NumberAt(s: string, w: nat, e: nat, v: nat) {
    && w < e <= |s| && Blank(s[..w]) && Blank(s[e..])
    && AllDigits(s[w..e]) && Number(s[w..e]) == v <= SIZE_MAX
  }

  ghost predicate ReadsAs(s: string, v: nat) {
    (Blank(s) && v == 0) || exists w: nat, e: nat :: NumberAt(s, w, e, v)
  }

  lemma LeadIs(s: string, w: nat)
    requires w <= |s| && Blank(s[..w]) && (w < |s| ==> !IsSpace(s[w]))
    ensures Spaces(s) == w
  {
    var n := Spaces(s);
    assert forall i :: 0 <= i < w ==> s[..w][i] == s[i];
    assert forall i :: 0 <= i < n ==> s[..n][i] == s[i];
  }

  /** The reader accepts exactly a number between blanks, or blanks alone. */
  lemma ParseUintMeans(s: string, v: nat)
    ensures ParseUint(s) == Some(v) <==> ReadsAs(s, v)
  {
    var w := Spaces(s);
    var t := s[w..];
    var d := Digits(t);
    assert t[..d] == s[w..w + d] && t[d..] == s[w + d..];
    if ParseUint(s) == Some(v) && d > 0 {
      assert NumberAt(s, w, w + d, v);
    }
    forall w', e | NumberAt(s, w', e, v)
      ensures ParseUint(s) == Some(v)
    {
      NumberParses(s, w', e, v);
    }
  }

  lemma NumberParses(s: string, w: nat, e: nat, v: nat)
    requires NumberAt(s, w, e, v)
    ensures ParseUint(s) == Some(v)
  {
    assert IsDigit(s[w..e][0]);
    LeadIs(s, w);
    var t := s[w..];
    assert t[..e - w] == s[w..e] && t[e - w..] == s[e..];
    if e < |s| {
      assert IsSpace(s[e..][0]);
    }
    RunIs(t, e - w);
  }

  /** The loop of parse_uint, with its guard against overflow digit by digit. */
  method ReadUint(s: string) returns (r: Option<nat>)
    ensures r == ParseUint(s)
  {
    hide Number, AllDigits, IsDigit, DigitValue, Digits, Spaces, ParseUint, IsSpace;
    var i := 0;
    while i < |s| && IsSpace(s[i])
      invariant i <= |s| && Blank(s[..i])
    {
      assert s[..i + 1] == s[..i] + [s[i]];
      i := i + 1;
    }
    LeadIs(s, i);
    var first := i;
    var value := 0;
    NoDigits(s[first..]);
    while i < |s| && IsDigit(s[i])
      invariant first <= i <= |s| && AllDigits(s[first..][..i - first])
      invariant value == Number(s[first..][..i - first]) <= SIZE_MAX
    {
      var digit := DigitValue(s[i]);
      OneMore(s[first..], i - first);
      TooLarge(value, digit);
      if value > (SIZE_MAX - digit) / 10 {
        Overflows(s, s[first..], i - first + 1);
        return None;
      }
      value := value * 10 + digit;
      i := i + 1;
    }
    RunIs(s[first..], i - first);
    ParseUintIs(s, first, i);
    if i == first {
      i := 0;
    }
    ghost var tail := i;
    while i < |s|
      invariant tail <= i <= |s| && Blank(s[tail..i])
    {
      if !IsSpace(s[i]) {
        assert s[i] == s[tail..][i - tail];
        return None;
      }
      assert s[tail..i + 1] == s[tail..i] + [s[i]];
      i := i + 1;
    }
    assert s[tail..i] == s[tail..];
    return Some(value);
  }

  lemma NoDigits(t: string)
    ensures AllDigits(t[..0]) && Number(t[..0]) == 0
  {
  }

  lemma OneMore(t: string, n: nat)
    requires n < |t| && AllDigits(t[..n]) && IsDigit(t[n])
    ensures AllDigits(t[..n + 1]) && Number(t[..n + 1]) == 10 * Number(t[..n]) + DigitValue(t[n])
  {
    NumberMore(t[..n], t[n]);
    assert t[..n + 1] == t[..n] + [t[n]];
  }

  /** The guard before the multiplication is exact. */
  lemma TooLarge(value: nat, digit: nat)
    requires digit < 10
    ensures value > (SIZE_MAX - digit) / 10 <==> 10 * value + digit > SIZE_MAX
  {
  }

  lemma ParseUintIs(s: string, w: nat, e: nat)
    requires w <= e <= |s| && Spaces(s) == w && Digits(s[w..]) == e - w && Number(s[w..][..e - w]) <= SIZE_MAX
    ensures ParseUint(s) == if Blank(s[if e == w then 0 else e..]) then Some(Number(s[w..][..e - w])) else None
  {
    assert s[w..][e - w..] == s[e..] && s[0..] == s;
  }

  /** A run of digits too large already is no smaller when all of it is read. */
  lemma Overflows(s: string, t: string, n: nat)
    requires t == s[Spaces(s)..] && 0 < n <= |t| && AllDigits(t[..n]) && Number(t[..n]) > SIZE_MAX
    ensures ParseUint(s) == None
  {
    var d := Digits(t);
    assert forall i :: 0 <= i < n ==> t[..n][i] == t[i];
    NumberGrows(t[..n], t[n..d]);
    assert t[..n] + t[n..d] == t[..d];
  }

  // ----- ranges -----

  /** The first dash, or the length. */
  function DashAt(s: string): (k: nat)
    ensures k <= |s| && '-' !in s[..k] && (k < |s| ==> s[k] == '-')
  {
    if s == "" || s[0] == '-' then 0 else
      var k := DashAt(s[1..]);
      assert s[..k + 1] == [s[0]] + s[1..][..k];
      k + 1
  }

  /** size_t subtraction. */
  function Minus(a: nat, b: nat): nat
    requires a <= SIZE_MAX && b <= SIZE_MAX
  {
    if a >= b then a - b else a + SIZE_MAX + 1 - b
  }

  /** parse_element: one number, or two with a dash between, not too far apart. */
  function ParseElement(s: string): (r: Option<(nat, nat)>)
    ensures r.Some? ==> r.value.0 <= SIZE_MAX && r.value.1 <= SIZE_MAX
  {
    var k := DashAt(s);
    if k == |s| then
      var n := ParseUint(s);
      if n.Some? then Some((n.value, n.value)) else None
    else if '-' in s[k + 1..] then None
    else
      var lo, hi := ParseUint(s[..k]), ParseUint(s[k + 1..]);
      if lo.Some? && hi.Some? && Minus(hi.value, lo.value) < MAX_RANGE_INDICES then Some((lo.value, hi.value)) else None
  }

  /** A reversed range is refused, unless its ends are so far apart that their difference wraps
      round below the cap; it then names no index. */
  lemma ReversedRange(s: string, t: string)
    requires '-' !in s && '-' !in t && ParseUint(s).Some? && ParseUint(t).Some? &&
             ParseUint(s).value > ParseUint(t).value
    ensures ParseElement(s + "-" + t) == None <==>
            ParseUint(s).value - ParseUint(t).value <= SIZE_MAX + 1 - MAX_RANGE_INDICES
  {
    DashIs(s, t);
  }

  /** Such a range: from the numeral of the largest index, 18446744073709551615, down to 0. */
  lemma WidestReversed()
    ensures ParseElement(Numeral(SIZE_MAX) + "-" + Numeral(0)) == Some((SIZE_MAX, 0))
  {
    var s, t := Numeral(SIZE_MAX), Numeral(0);
    NumeralParses(SIZE_MAX);
    NumeralParses(0);
    DashIs(s, t);
    hide ParseUint, Numeral;
    assert Minus(0, SIZE_MAX) == 1;
  }

  lemma DashIs(s: string, t: string)
    requires '-' !in s
    ensures var e := s + "-" + t; DashAt(e) == |s| && e[..|s|] == s && e[|s| + 1..] == t
  {
    var e := s + "-" + t;
    assert e[|s|] == '-';
    var k := DashAt(e);
    assert forall i :: 0 <= i < |s| ==> s[i] == e[i];
    assert forall i :: 0 <= i < k ==> e[..k][i] == e[i];
  }

  method ReadElement(s: string) returns (r: Option<(nat, nat)>)
    ensures r == ParseElement(s)
  {
    var dash := DashAt(s);
    if dash == |s| {
      var n := ReadUint(s);
      if n.None? {
        return None;
      }
      return Some((n.value, n.value));
    }
    if '-' in s[dash + 1..] {
      return None;
    }
    var lo := ReadUint(s[..dash]);
    if lo.None? {
      return None;
    }
    var hi := ReadUint(s[dash + 1..]);
    if hi.None? {
      return None;
    }
    if Minus(hi.value, lo.value) < MAX_RANGE_INDICES {
      r := Some((lo.value, hi.value));
    } else {
      r := None;
    }
  }

  // ----- what the printer writes reads back -----

  lemma NumeralParses(n: nat)
    requires n <= SIZE_MAX
    ensures ParseUint(Numeral(n)) == Some(n) && '-' !in Numeral(n)
  {
    var s := Numeral(n);
    NumberOfNumeral(n);
    assert s[0..|s|] == s && s[..0] == "" && s[|s|..] == "";
    assert NumberAt(s, 0, |s|, n);
    NumberParses(s, 0, |s|, n);
  }

  lemma NumeralPlain(n: nat)
    ensures ',' !in Numeral(n) && ':' !in Numeral(n) && DashAt(Numeral(n)) == |Numeral(n)|
  {
    var s := Numeral(n);
    assert AllDigits(s);
    hide Numeral;
  }

  /** One run of consecutive indices: a number, or "first-last". */
  function RangeText(lo: nat, hi: nat): string {
    if lo == hi then Numeral(lo) else Numeral(lo) + "-" + Numeral(hi)
  }

  lemma RangeTextIs(lo: nat, hi: nat)
    ensures RangeText(lo, hi) == if lo == hi then Numeral(lo) else Numeral(lo) + "-" + Numeral(hi)
  {
    hide Numeral;
  }

  lemma NumberElement(s: string)
    requires DashAt(s) == |s|
    ensures ParseElement(s) == if ParseUint(s).Some? then Some((ParseUint(s).value, ParseUint(s).value)) else None
  {
    hide ParseUint, DashAt;
  }

  lemma RangeElement(s: string, t: string)
    requires '-' !in s && '-' !in t && ParseUint(s).Some? && ParseUint(t).Some?
    ensures ParseUint(s).value <= SIZE_MAX && ParseUint(t).value <= SIZE_MAX
    ensures ParseElement(s + "-" + t) ==
            if Minus(ParseUint(t).value, ParseUint(s).value) < MAX_RANGE_INDICES
              then Some((ParseUint(s).value, ParseUint(t).value)) else None
  {
    DashIs(s, t);
    UintBound(s);
    UintBound(t);
    hide ParseUint, DashAt;
  }

  lemma UintBound(s: string)
    ensures ParseUint(s).Some? ==> ParseUint(s).value <= SIZE_MAX
  {
    hide Number, Digits, Spaces, Blank;
  }

  lemma RangeParses(lo: nat, hi: nat)
    requires lo <= hi <= SIZE_MAX && hi - lo < MAX_RANGE_INDICES
    ensures ParseElement(RangeText(lo, hi)) == Some((lo, hi))
    ensures RangeText(lo, hi) != "" && ',' !in RangeText(lo, hi) && ':' !in RangeText(lo, hi)
  {
    NumeralParses(lo);
    NumeralParses(hi);
    NumeralPlain(lo);
    NumeralPlain(hi);
    RangeTextIs(lo, hi);
    hide ParseElement, ParseUint, Numeral, RangeText, IsDigit, DashAt;
    if lo == hi {
      NumberElement(Numeral(lo));
    } else {
      RangeElement(Numeral(lo), Numeral(hi));
    }
  }
}
