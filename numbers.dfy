/**
 * How the client turns form text into numbers and numbers back into text:
 * `Number(text)`, `parseFloat(text)`, `parseInt(text)` and
 * `amount.toFixed(2)`, over plain decimal numerals.
 */
module Numbers {
  import opened Common

  predicate IsDigit(c: char) { '0' <= c <= '9' }

  predicate AllDigits(s: string)
  {
    forall k :: 0 <= k < |s| ==> IsDigit(s[k])
  }

  /** The natural number a run of decimal digits denotes. */
  function DigitsValue(s: string): nat
    requires AllDigits(s)
  {
    if s == [] then 0 else 10 * DigitsValue(s[..|s| - 1]) + (s[|s| - 1] as int - 48)
  }

  /** Reading back the digits of `n` gives `n`. */
  lemma {:induction false} NatTextValue(n: nat)
    ensures AllDigits(NatText(n)) && DigitsValue(NatText(n)) == n
  {
    var s := NatText(n);
    if n >= 10 {
      NatTextValue(n / 10);
      assert s[..|s| - 1] == NatText(n / 10);
    }
  }

  /** Position of the first '.' in `s`, or |s| when there is none. */
  function PointAt(s: string): (i: nat)
    ensures i <= |s| && (i < |s| ==> s[i] == '.') && forall k :: 0 <= k < i ==> s[k] != '.'
  {
    if s == [] then 0 else if s[0] == '.' then 0 else 1 + PointAt(s[1..])
  }

  /** The value of the digits after a decimal point: each digit is worth a tenth of the one before it. */
  function FractionValue(frac: string): real
    requires AllDigits(frac)
  {
    if frac == [] then 0.0 else ((frac[0] as int - 48) as real + FractionValue(frac[1..])) / 10.0
  }

  /** An unsigned decimal numeral: digits, optionally followed by a point and more digits. */
  function ParseUnsigned(s: string): Option<real>
  {
    var p := PointAt(s);
    var whole, frac := s[..p], if p < |s| then s[p + 1..] else "";
    if whole == [] || !AllDigits(whole) || !AllDigits(frac) || (p < |s| && frac == []) then None
    else Some(DigitsValue(whole) as real + FractionValue(frac))
  }

  /** A decimal numeral with an optional leading sign. */
  function ParseDecimal(s: string): Option<real>
  {
    var signed := s != [] && (s[0] == '-' || s[0] == '+');
    var v := ParseUnsigned(if signed then s[1..] else s);
    if v.Some? && s[0] == '-' then Some(-v.value) else v
  }

  /**
   * `Number(text)` on plain decimal numerals: blank text reads as 0;
   * anything else must be a signed numeral (None is NaN).
   */
  function JsNumber(s: string): (r: Option<real>)
    ensures Trim(s) == [] ==> r == Some(0.0)
    ensures s != [] && AllDigits(s) ==> r == Some(DigitsValue(s) as real)
  {
    if s != [] && AllDigits(s) then
      TrimKeeps(s);
      DigitsRead(s);
      ParseDecimal(s)
    else
      var t := Trim(s);
      if t == [] then Some(0.0) else ParseDecimal(t)
  }

  /** A plain run of digits reads as the number it denotes. */
  lemma DigitsRead(s: string)
    requires s != [] && AllDigits(s)
    ensures ParseDecimal(s) == Some(DigitsValue(s) as real)
  {
    assert s[..PointAt(s)] == s;
  }

  /**
   * `parseFloat(text)` on the same numerals: as `Number` reads them,
   * except that blank text is NaN.
   */
  function JsParseFloat(s: string): (r: Option<real>)
    ensures Trim(s) == [] ==> r.None?
    ensures Trim(s) != [] ==> r == JsNumber(s)
  {
    var t := Trim(s);
    if t == [] then None else ParseDecimal(t)
  }

  /** Length of the run of digits at the start of `s`. */
  function DigitRun(s: string): (n: nat)
    ensures n <= |s| && AllDigits(s[..n]) && (n < |s| ==> !IsDigit(s[n]))
  {
    if s != [] && IsDigit(s[0]) then
      var n := 1 + DigitRun(s[1..]);
      assert s[..n] == [s[0]] + s[1..][..n - 1];
      n
    else 0
  }

  /** `parseInt(text)`: optional blanks and sign, then the leading digits (None is NaN). */
  function JsParseInt(s: string): (r: Option<int>)
    ensures s != [] && AllDigits(s) ==> r == Some(DigitsValue(s))
    ensures s != [] && IsDigit(s[0]) ==> r == Some(DigitsValue(s[..DigitRun(s)]) as int)
  {
    assert s[..|s|] == s;
    var t := TrimStart(s);
    var neg := t != [] && t[0] == '-';
    var body := if t != [] && (t[0] == '-' || t[0] == '+') then t[1..] else t;
    var n := DigitRun(body);
    if n == 0 then None
    else if neg then Some(-(DigitsValue(body[..n]) as int))
    else Some(DigitsValue(body[..n]) as int)
  }

  /** The whole number of hundredths `toFixed(2)` writes for `|x|` (ties go up). */
  function Cents(x: real): nat
  {
    (Abs(x) * 100.0 + 0.5).Floor
  }

  /** The value of `x.toFixed(2)`: `x` rounded to hundredths. */
  function Fixed2(x: real): (r: real)
    ensures Abs(r - x) <= 0.005
  {
    var v := Cents(x) as real / 100.0;
    if x < 0.0 then -v else v
  }

  /** Hundredths `c` written as a whole part, a point and exactly two decimals. */
  function CentsText(c: nat): string
  {
    NatText(c / 100) + "." + [(48 + (c % 100) / 10) as char, (48 + c % 10) as char]
  }

  /** The text of `x.toFixed(2)`: a sign for negative `x`, then its hundredths. */
  function FixedText(x: real): (r: string)
    ensures |r| >= 4 && r[|r| - 3] == '.' && IsDigit(r[|r| - 2]) && IsDigit(r[|r| - 1])
    ensures r[0] == '-' <==> x < 0.0
  {
    (if x < 0.0 then "-" else "") + CentsText(Cents(x))
  }

  lemma CentsSplit(c: nat)
    ensures (c / 100) as real + (((c % 100) / 10 * 10 + c % 10) as real) / 100.0 == c as real / 100.0
  {
    var q, r := c / 100, c % 100;
    DivMod(c, 100);
    DivMod(r, 10);
    assert c % 10 == r % 10 by { DivMod(c, 10); DivMod(q * 10 + r / 10, 10); }
    ShiftHundredths(q, r);
  }

  lemma DivMod(c: nat, d: nat)
    requires d > 0
    ensures c == (c / d) * d + c % d && 0 <= c % d < d
  {
  }

  lemma ShiftHundredths(q: int, m: int)
    ensures q as real + m as real / 100.0 == (q * 100 + m) as real / 100.0
  {
  }

  /** A run of digits, a point and a non-empty run of digits reads as the whole part plus the scaled fraction. */
  lemma PointedReadsBack(w: string, d: string)
    requires w != [] && AllDigits(w) && d != [] && AllDigits(d)
    ensures ParseUnsigned(w + "." + d) == Some(DigitsValue(w) as real + FractionValue(d))
  {
    PointSplits(w, d);
    PointedAt(w + "." + d, w, d);
  }

  /** Joining a point-free whole part, a point and a fraction puts the first point between the two. */
  lemma PointSplits(w: string, d: string)
    requires AllDigits(w)
    ensures var u := w + "." + d; PointAt(u) == |w| && u[..|w|] == w && u[|w| + 1..] == d
  {
    var u := w + "." + d;
    assert forall k :: 0 <= k < |w| ==> u[k] != '.' by {
      forall k | 0 <= k < |w| ensures u[k] != '.' { assert u[k] == w[k]; }
    }
    PointAtFirst(u, |w|);
    assert u[..|w|] == w;
    assert u[|w| + 1..] == d;
  }

  /** A numeral whose first point splits it into the digits `w` and `d` reads as those two parts. */
  lemma PointedAt(u: string, w: string, d: string)
    requires PointAt(u) == |w| < |u| && u[..|w|] == w && u[|w| + 1..] == d
    requires w != [] && AllDigits(w) && d != [] && AllDigits(d)
    ensures ParseUnsigned(u) == Some(DigitsValue(w) as real + FractionValue(d))
  {
  }

  /** The two digits after the point read back as the hundredths below 100. */
  lemma TwoDigitsValue(c: nat)
    ensures var d := [(48 + (c % 100) / 10) as char, (48 + c % 10) as char];
      AllDigits(d) && FractionValue(d) == ((c % 100) / 10 * 10 + c % 10) as real / 100.0
  {
    var d := [(48 + (c % 100) / 10) as char, (48 + c % 10) as char];
    var hi, lo := (c % 100) / 10, c % 10;
    assert d[0] as int - 48 == hi && d[1] as int - 48 == lo;
    assert d[1..][1..] == [];
    assert FractionValue(d[1..]) == lo as real / 10.0;
    assert FractionValue(d) == (hi as real + lo as real / 10.0) / 10.0;
  }

  lemma CentsTextReadsBack(c: nat)
    ensures ParseUnsigned(CentsText(c)) == Some(c as real / 100.0)
    ensures CentsText(c) != [] && IsDigit(CentsText(c)[0]) && IsDigit(CentsText(c)[|CentsText(c)| - 1])
  {
    var w := NatText(c / 100);
    var d := [(48 + (c % 100) / 10) as char, (48 + c % 10) as char];
    assert CentsText(c) == w + "." + d;
    NatTextValue(c / 100);
    TwoDigitsValue(c);
    PointedReadsBack(w, d);
    CentsSplit(c);
  }

  /** Reading back what `toFixed(2)` wrote gives the rounded value, with `Number` and with `parseFloat`. */
  lemma FixedTextReadsBack(x: real)
    ensures JsNumber(FixedText(x)) == Some(Fixed2(x))
    ensures JsParseFloat(FixedText(x)) == Some(Fixed2(x))
  {
    var c := Cents(x);
    var u := CentsText(c);
    CentsTextReadsBack(c);
    var s := (if x < 0.0 then "-" else "") + u;
    assert FixedText(x) == s;
    var v := c as real / 100.0;
    assert Fixed2(x) == if x < 0.0 then -v else v;
    SignedReadsBack(u, v, x < 0.0);
  }

  lemma SignedReadsBack(u: string, v: real, neg: bool)
    requires ParseUnsigned(u) == Some(v)
    requires u != [] && IsDigit(u[0]) && IsDigit(u[|u| - 1])
    ensures JsNumber((if neg then "-" else "") + u) == Some(if neg then -v else v)
    ensures JsParseFloat((if neg then "-" else "") + u) == Some(if neg then -v else v)
  {
    if neg { NegReadsBack(u, v); } else { PosReadsBack(u, v); assert "" + u == u; }
  }

  lemma PosReadsBack(u: string, v: real)
    requires ParseUnsigned(u) == Some(v)
    requires u != [] && IsDigit(u[0]) && IsDigit(u[|u| - 1])
    ensures JsNumber(u) == Some(v) && JsParseFloat(u) == Some(v)
  {
    TrimKeeps(u);
  }

  lemma NegReadsBack(u: string, v: real)
    requires ParseUnsigned(u) == Some(v)
    requires u != [] && IsDigit(u[0]) && IsDigit(u[|u| - 1])
    ensures JsNumber("-" + u) == Some(-v) && JsParseFloat("-" + u) == Some(-v)
  {
    var s := "-" + u;
    assert s[1..] == u && s[0] == '-' && s[|s| - 1] == u[|u| - 1];
    TrimKeeps(s);
    NegDecimal(s, v);
  }

  /** A minus sign before a numeral negates its value. */
  lemma NegDecimal(s: string, v: real)
    requires s != [] && s[0] == '-' && ParseUnsigned(s[1..]) == Some(v)
    ensures ParseDecimal(s) == Some(-v)
  {
  }

  lemma PointAtFirst(u: string, i: nat)
    requires i < |u| && u[i] == '.' && forall k :: 0 <= k < i ==> u[k] != '.'
    ensures PointAt(u) == i
  {
    if i > 0 { PointAtFirst(u[1..], i - 1); }
  }
}
