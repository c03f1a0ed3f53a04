/** The client's strict amount parser `toNatBigInt`: the input is turned into
    text (`String(v ?? "")`), trimmed, and accepted only when what remains is
    one or more ASCII digits, whose decimal value is the amount.  `Format` is
    the decimal text `BigInt.prototype.toString` gives an amount back, the
    parser's partner. */
module Amount {
  import opened Common

  /** A JavaScript value handed to the parser: `null`/`undefined`, or a string. */
  datatype Input = Nullish | Text(s: string)

  /** `String(v ?? "")`, also what `(v || "")` gives for a string or a nullish value. */
  function OrEmpty(v: Input): string {
    match v
    case Nullish => ""
    case Text(s) => s
  }

  /** The characters `String.prototype.trim` strips: ECMAScript's WhiteSpace
      (tab, vertical tab, form feed, the space separators and the byte order
      mark) and LineTerminator (line feed, carriage return, line and paragraph
      separator). */
  predicate IsWhitespace(c: char) {
    c == '\t' || c == '\n' || c == '\U{000B}' || c == '\U{000C}' || c == '\r' || c == ' ' ||
    c == '\U{00A0}' || c == '\U{1680}' || ('\U{2000}' <= c <= '\U{200A}') ||
    c == '\U{2028}' || c == '\U{2029}' || c == '\U{202F}' || c == '\U{205F}' ||
    c == '\U{3000}' || c == '\U{FEFF}'
  }

  predicate AllWhitespace(s: string) {
    forall i :: 0 <= i < |s| ==> IsWhitespace(s[i])
  }

  /** `\d`: an ASCII decimal digit. */
  predicate IsDigit(c: char) {
    '0' <= c <= '9'
  }

  predicate AllDigits(s: string) {
    forall i :: 0 <= i < |s| ==> IsDigit(s[i])
  }

  /** The test `/^\d+$/`: one or more digits and nothing else. */
  predicate IsDigitString(s: string) {
    |s| > 0 && AllDigits(s)
  }

  /** The end of the whitespace run that starts at `k`. */
  function BlanksFrom(s: string, k: nat): (n: nat)
    requires k <= |s|
    ensures k <= n <= |s|
    ensures forall i :: k <= i < n ==> IsWhitespace(s[i])
    ensures n < |s| ==> !IsWhitespace(s[n])
    decreases |s| - k
  {
    if k < |s| && IsWhitespace(s[k]) then BlanksFrom(s, k + 1) else k
  }

  /** The start of the whitespace run that ends at `k`. */
  function BlanksBefore(s: string, k: nat): (n: nat)
    requires k <= |s|
    ensures n <= k
    ensures forall i :: n <= i < k ==> IsWhitespace(s[i])
    ensures n > 0 ==> !IsWhitespace(s[n - 1])
  {
    if k > 0 && IsWhitespace(s[k - 1]) then BlanksBefore(s, k - 1) else k
  }

  /** The leading whitespace removed. */
  function TrimStart(s: string): (r: string)
    ensures |r| <= |s| && r == s[|s| - |r|..]
    ensures AllWhitespace(s[..|s| - |r|])
    ensures r == [] || !IsWhitespace(r[0])
  {
    var n := BlanksFrom(s, 0);
    assert forall i :: 0 <= i < n ==> s[..n][i] == s[i];
    s[n..]
  }

  /** The trailing whitespace removed. */
  function TrimEnd(s: string): (r: string)
    ensures |r| <= |s| && r == s[..|r|]
    ensures AllWhitespace(s[|r|..])
    ensures r == [] || !IsWhitespace(r[|r| - 1])
  {
    var n := BlanksBefore(s, |s|);
    assert forall i :: 0 <= i < |s| - n ==> s[n..][i] == s[n + i];
    s[..n]
  }

  /** The leading whitespace run is fixed by where it stops. */
  lemma BlanksFromUnique(s: string, n: nat)
    requires n <= |s| && (forall i :: 0 <= i < n ==> IsWhitespace(s[i]))
    requires n < |s| ==> !IsWhitespace(s[n])
    ensures BlanksFrom(s, 0) == n
  {
  }

  /** The trailing whitespace run is fixed by where it starts. */
  lemma BlanksBeforeUnique(s: string, n: nat)
    requires n <= |s| && (forall i :: n <= i < |s| ==> IsWhitespace(s[i]))
    requires n > 0 ==> !IsWhitespace(s[n - 1])
    ensures BlanksBefore(s, |s|) == n
  {
  }

  /** `String.prototype.trim`: whitespace removed from both ends and nothing else. */
  function Trim(s: string): (r: string)
    ensures r == [] || (!IsWhitespace(r[0]) && !IsWhitespace(r[|r| - 1]))
  {
    TrimEnd(TrimStart(s))
  }

  function DigitValue(c: char): (d: nat)
    requires IsDigit(c)
  {
    (c as int) - ('0' as int)
  }

  function Digit(d: nat): (c: char)
    requires d < 10
    ensures IsDigit(c) && DigitValue(c) == d
  {
    ('0' as int + d) as char
  }

  /** The number a string of decimal digits denotes (`BigInt(s)`). */
  function DecimalValue(s: string): nat
    requires AllDigits(s)
  {
    if s == [] then 0 else 10 * DecimalValue(s[..|s| - 1]) + DigitValue(s[|s| - 1])
  }

  /** `toNatBigInt(v)`: `None` where the source throws
      "Amount must be a whole number (nat).". */
  function ToNat(v: Input): (r: Option<nat>)
    ensures r.Some? <==> IsDigitString(Trim(OrEmpty(v)))
  {
    var s := Trim(OrEmpty(v));
    if IsDigitString(s) then Some(DecimalValue(s)) else None
  }

  /** Decimal text of an amount without leading zeros (`n.toString()` on a BigInt). */
  function Format(n: nat): (r: string)
    ensures IsDigitString(r)
    ensures |r| > 1 ==> r[0] != '0'
    decreases n
  {
    if n < 10 then [Digit(n)] else Format(n / 10) + [Digit(n % 10)]
  }

  /** The digit string with its redundant leading zeros dropped ("007" to "7", "000" to "0"). */
  function StripLeadingZeros(s: string): (r: string)
    ensures |r| <= |s| && r == s[|s| - |r|..]
    ensures forall i :: 0 <= i < |s| - |r| ==> s[i] == '0'
    ensures |s| > 0 ==> |r| > 0
    ensures |r| > 1 ==> r[0] != '0'
  {
    if |s| > 1 && s[0] == '0' then
      var r := StripLeadingZeros(s[1..]);
      assert forall i :: 1 <= i < |s| - |r| ==> s[i] == s[1..][i - 1];
      r
    else s
  }

  /* -------------------- Lemmas -------------------- */

  lemma {:induction false} DecimalValueOfFormat(n: nat)
    ensures DecimalValue(Format(n)) == n
    decreases n
  {
    var f := Format(n);
    if n >= 10 {
      DecimalValueOfFormat(n / 10);
      assert f[..|f| - 1] == Format(n / 10);
    }
  }

  /** A leading zero does not change the value. */
  lemma {:induction false} LeadingZeroIrrelevant(s: string)
    requires AllDigits(s)
    ensures DecimalValue(['0'] + s) == DecimalValue(s)
    decreases |s|
  {
    if s != [] {
      var z := ['0'] + s;
      assert z[..|z| - 1] == ['0'] + s[..|s| - 1];
      LeadingZeroIrrelevant(s[..|s| - 1]);
    }
  }

  /** A digit string that starts with a non-zero digit denotes at least 1. */
  lemma {:induction false} PositiveWithoutLeadingZero(s: string)
    requires IsDigitString(s) && s[0] != '0'
    ensures DecimalValue(s) >= 1
    decreases |s|
  {
    if |s| > 1 {
      PositiveWithoutLeadingZero(s[..|s| - 1]);
    }
  }

  /** A digit string without redundant leading zeros is exactly the text of its value. */
  lemma {:induction false} FormatOfCanonical(s: string)
    requires IsDigitString(s) && (|s| > 1 ==> s[0] != '0')
    ensures Format(DecimalValue(s)) == s
    decreases |s|
  {
    if |s| > 1 {
      var init := s[..|s| - 1];
      PositiveWithoutLeadingZero(init);
      FormatOfCanonical(init);
      assert s == init + [s[|s| - 1]];
    }
  }

  /** Parsing then printing gives back the digits with leading zeros stripped. */
  lemma {:induction false} FormatOfDecimalValue(s: string)
    requires IsDigitString(s)
    ensures Format(DecimalValue(s)) == StripLeadingZeros(s)
    decreases |s|
  {
    if |s| > 1 && s[0] == '0' {
      assert s == ['0'] + s[1..];
      LeadingZeroIrrelevant(s[1..]);
      FormatOfDecimalValue(s[1..]);
    } else {
      FormatOfCanonical(s);
    }
  }

  /** Leading zeros are irrelevant: two digit strings that agree once their
      leading zeros are stripped parse to the same amount. */
  lemma SameValueUpToLeadingZeros(s: string, t: string)
    requires IsDigitString(s) && IsDigitString(t)
    requires StripLeadingZeros(s) == StripLeadingZeros(t)
    ensures ToNat(Text(s)) == ToNat(Text(t))
  {
    TrimOfDigits(s);
    TrimOfDigits(t);
    FormatOfDecimalValue(s);
    FormatOfDecimalValue(t);
    DecimalValueOfFormat(DecimalValue(s));
    DecimalValueOfFormat(DecimalValue(t));
  }

  /** Trimming removes whitespace at the two ends and nothing else. */
  lemma TrimIsInfix(s: string)
    ensures var r := Trim(s);
            exists i :: 0 <= i <= |s| - |r| && r == s[i..i + |r|] &&
                        AllWhitespace(s[..i]) && AllWhitespace(s[i + |r|..])
  {
    WhitespaceAround(s, TrimStart(s), Trim(s));
  }

  /** `r` is a prefix of the suffix `t` of `s`, and what lies around `r` is whitespace. */
  lemma WhitespaceAround(s: string, t: string, r: string)
    requires |t| <= |s| && t == s[|s| - |t|..] && AllWhitespace(s[..|s| - |t|])
    requires |r| <= |t| && r == t[..|r|] && AllWhitespace(t[|r|..])
    ensures exists i :: 0 <= i <= |s| - |r| && r == s[i..i + |r|] &&
                        AllWhitespace(s[..i]) && AllWhitespace(s[i + |r|..])
  {
    var i := |s| - |t|;
    assert s[i..i + |r|] == t[..|r|];
    assert s[i + |r|..] == t[|r|..];
  }

  lemma TrimOfDigits(s: string)
    requires AllDigits(s)
    ensures Trim(s) == s
  {
    if s != [] {
      assert !IsWhitespace(s[0]) && !IsWhitespace(s[|s| - 1]);
      assert [] + s == s && s + [] == s;
      TrimStartPadded([], s);
      TrimEndPadded(s, []);
    }
  }

  /** Every amount's decimal text parses back to that amount. */
  lemma FormatRoundTrip(n: nat)
    ensures ToNat(Text(Format(n))) == Some(n)
  {
    TrimOfDigits(Format(n));
    DecimalValueOfFormat(n);
  }

  lemma TrimStartPadded(w: string, d: string)
    requires AllWhitespace(w)
    requires d == [] || !IsWhitespace(d[0])
    ensures TrimStart(w + d) == d
  {
    var x := w + d;
    assert forall i :: 0 <= i < |w| ==> x[i] == w[i];
    assert |w| < |x| ==> x[|w|] == d[0];
    BlanksFromUnique(x, |w|);
    assert x[|w|..] == d;
  }

  lemma TrimEndPadded(d: string, w: string)
    requires AllWhitespace(w)
    requires d == [] || !IsWhitespace(d[|d| - 1])
    ensures TrimEnd(d + w) == d
  {
    var x := d + w;
    assert forall i :: |d| <= i < |x| ==> x[i] == w[i - |d|];
    assert |d| > 0 ==> x[|d| - 1] == d[|d| - 1];
    BlanksBeforeUnique(x, |d|);
    assert x[..|d|] == d;
  }

  /** Whitespace around the digits is ignored. */
  lemma PaddedDigits(w1: string, d: string, w2: string)
    requires AllWhitespace(w1) && AllWhitespace(w2) && IsDigitString(d)
    ensures ToNat(Text(w1 + d + w2)) == Some(DecimalValue(d))
  {
    var x := w1 + d + w2;
    assert x == w1 + (d + w2);
    assert (d + w2)[0] == d[0] && !IsWhitespace(d[0]);
    TrimStartPadded(w1, d + w2);
    assert !IsWhitespace(d[|d| - 1]);
    TrimEndPadded(d, w2);
    assert Trim(x) == d;
    assert OrEmpty(Text(x)) == x;
  }

  /** Nothing, or nothing but blanks, is refused (`null`, `undefined`, "", " \t\n", ...). */
  lemma RejectedBlank(v: Input)
    requires AllWhitespace(OrEmpty(v))
    ensures ToNat(v) == None
  {
    var s := OrEmpty(v);
    BlanksFromUnique(s, |s|);
    assert TrimStart(s) == [];
  }

  /** Trimming drops no character that is not whitespace: the character at
      `k` is the character at `j` of the trimmed text. */
  lemma TrimKeeps(s: string, k: nat) returns (j: nat)
    requires k < |s| && !IsWhitespace(s[k])
    ensures j < |Trim(s)| && Trim(s)[j] == s[k]
  {
    var a := BlanksFrom(s, 0);
    assert a <= k;
    var t := s[a..];
    assert TrimStart(s) == t;
    j := k - a;
    assert t[j] == s[k];
    var b := BlanksBefore(t, |t|);
    assert j < b;
    assert Trim(s) == t[..b];
  }

  /** A character that is neither a digit nor whitespace anywhere in the text
      makes the amount invalid: signs ("-5"), decimal points ("1.5"),
      exponents and letters are all refused. */
  lemma RejectedForeignChar(v: Input, k: nat)
    requires k < |OrEmpty(v)| && !IsDigit(OrEmpty(v)[k]) && !IsWhitespace(OrEmpty(v)[k])
    ensures ToNat(v) == None
  {
    var j := TrimKeeps(OrEmpty(v), k);
    assert !IsDigit(Trim(OrEmpty(v))[j]);
  }
}
