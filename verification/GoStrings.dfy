/** Option and Result, shared by every other module. */
module Wrappers {
  datatype Option<+T> = None | Some(value: T)

  datatype Result<+T, +E> = Ok(value: T) | Err(error: E)
}

/** The string operations the driver relies on: case folding of resource names
    (over ASCII, the alphabet of Azure resource IDs) and the decimal conversions
    behind paging tokens. */
module GoStrings {
  import opened Wrappers

  function LowerChar(c: char): char {
    if 'A' <= c <= 'Z' then (c as int + 32) as char else c
  }

  function Lower(s: string): (r: string)
    ensures |r| == |s|
    ensures forall i :: 0 <= i < |s| ==> r[i] == LowerChar(s[i])
  {
    seq(|s|, i requires 0 <= i < |s| => LowerChar(s[i]))
  }

  const UPPER := "ABCDEFGHIJKLMNOPQRSTUVWXYZ"
  const LOWER := "abcdefghijklmnopqrstuvwxyz"

  /** Folding takes each capital letter to its small one and leaves every other character alone. */
  lemma LowerLetters(c: char)
    ensures forall i :: 0 <= i < 26 ==> LowerChar(UPPER[i]) == LOWER[i]
    ensures c !in UPPER ==> LowerChar(c) == c
  {
    if 'A' <= c <= 'Z' { assert c == UPPER[c as int - 'A' as int]; }
  }

  predicate EqualFold(a: string, b: string) {
    Lower(a) == Lower(b)
  }

  const MAX_INT := 0x7FFF_FFFF_FFFF_FFFF
  const MIN_INT := -0x8000_0000_0000_0000

  predicate IsDigit(c: char) { '0' <= c <= '9' }

  predicate AllDigits(s: string) { forall i :: 0 <= i < |s| ==> IsDigit(s[i]) }

  function DigitChar(d: nat): (c: char)
    requires d < 10
    ensures IsDigit(c) && c as int - '0' as int == d
  {
    (d + '0' as int) as char
  }

  function ItoaNat(n: nat): (s: string)
    ensures s != [] && AllDigits(s)
  {
    if n < 10 then [DigitChar(n)] else ItoaNat(n / 10) + [DigitChar(n % 10)]
  }

  /** strconv.Itoa. */
  function Itoa(n: int): string {
    if n < 0 then "-" + ItoaNat(-n) else ItoaNat(n)
  }

  function DigitsValue(s: string): nat
    requires AllDigits(s)
  {
    if s == [] then 0
    else assert IsDigit(s[|s| - 1]); 10 * DigitsValue(s[..|s| - 1]) + (s[|s| - 1] as int - '0' as int)
  }

  /** strconv.Atoi: an optional sign, then at least one decimal digit, within 64 bits. */
  function Atoi(s: string): Option<int> {
    var body := if s != [] && (s[0] == '-' || s[0] == '+') then s[1..] else s;
    if body == [] || !AllDigits(body) then None
    else
      var v: int := DigitsValue(body);
      var n := if s[0] == '-' then -v else v;
      if MIN_INT <= n <= MAX_INT then Some(n) else None
  }

  lemma {:induction false} DigitsOfItoa(n: nat)
    ensures DigitsValue(ItoaNat(n)) == n
  {
    if n < 10 {
      assert ItoaNat(n)[..0] == [];
    } else {
      DigitsOfItoa(n / 10);
      assert ItoaNat(n)[..|ItoaNat(n)| - 1] == ItoaNat(n / 10);
    }
  }

  /** Parsing a printed integer gives it back, for every 64-bit integer: this is what lets a
      paging token carry a position. */
  lemma AtoiOfItoa(n: int)
    requires MIN_INT <= n <= MAX_INT
    ensures Atoi(Itoa(n)) == Some(n)
    ensures Itoa(n) != ""
  {
    DigitsOfItoa(if n < 0 then -n else n);
    if n < 0 {
      assert Itoa(n)[1..] == ItoaNat(-n);
    } else {
      assert IsDigit(Itoa(n)[0]);
    }
  }

  /** A digit more is ten times the value so far, plus the digit. */
  lemma DigitAppended(a: string, d: nat)
    requires AllDigits(a) && d < 10
    ensures DigitsValue("") == 0 && DigitsValue(a + [DigitChar(d)]) == 10 * DigitsValue(a) + d
  {
    assert (a + [DigitChar(d)])[..|a|] == a;
  }

  /** Decimal notation with an optional sign, within 64 bits. */
  lemma AtoiReads(d: string)
    requires d != "" && AllDigits(d)
    ensures Atoi(d) == (if DigitsValue(d) <= 0x7FFF_FFFF_FFFF_FFFF then Some(DigitsValue(d)) else None)
    ensures Atoi("+" + d) == Atoi(d)
    ensures Atoi("-" + d) == (if DigitsValue(d) <= 0x8000_0000_0000_0000 then Some(0 - DigitsValue(d) as int) else None)
  {
    assert IsDigit(d[0]) && ("+" + d)[1..] == d && ("-" + d)[1..] == d;
  }

  /** Nothing else is read. */
  lemma AtoiRefuses(s: string)
    requires Atoi(s).Some?
    ensures s != "" && AllDigits(s[1..]) && (IsDigit(s[0]) || ((s[0] == '+' || s[0] == '-') && |s| > 1))
  {
    var body := if s != [] && (s[0] == '-' || s[0] == '+') then s[1..] else s;
    assert body != [] && AllDigits(body);
    if body == s {
      assert IsDigit(s[0]);
      assert forall i :: 0 <= i < |s| - 1 ==> s[1..][i] == s[i + 1];
    }
  }
}
