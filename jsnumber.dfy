/** JavaScript's two string-to-number conversions as the normaliser uses them,
    over decimal literals (an optional sign, digits, an optional fraction):
    `Number(s)` accepts a string only when all of it, after trimming white space,
    is such a literal (the empty string gives 0), while `parseFloat(s)` skips
    leading white space and reads the longest such literal at the front.
    `None` stands for `NaN`. */
module JsNumber {
  import opened Wrappers
  import opened Text

  predicate IsDigit(c: char) { '0' <= c <= '9' }

  predicate AllDigits(s: string) { forall i :: 0 <= i < |s| ==> IsDigit(s[i]) }

  function DigitVal(c: char): nat
    requires IsDigit(c)
  {
    c as int - '0' as int
  }

  /** The end of the longest run of digits that starts at `i`. */
  function DigitRunEnd(s: string, i: nat): (j: nat)
    requires i <= |s|
    ensures i <= j <= |s|
    ensures forall k :: i <= k < j ==> IsDigit(s[k])
    ensures j < |s| ==> !IsDigit(s[j])
    decreases |s| - i
  {
    if i < |s| && IsDigit(s[i]) then DigitRunEnd(s, i + 1) else i
  }

  /** The integer a string of decimal digits denotes. */
  function DigitsValue(ds: string): nat
    requires AllDigits(ds)
  {
    if ds == [] then 0 else DigitsValue(ds[..|ds| - 1]) * 10 + DigitVal(ds[|ds| - 1])
  }

  /** The value of the digits after a decimal point. */
  function FractionValue(ds: string): real
    requires AllDigits(ds)
  {
    if ds == [] then 0.0 else (DigitVal(ds[0]) as real + FractionValue(ds[1..])) / 10.0
  }

  /** `s` without its leading white space. */
  function TrimStart(s: string): (r: string)
    ensures |r| <= |s| && r == s[|s| - |r|..]
    ensures forall k :: 0 <= k < |s| - |r| ==> IsSpace(s[k])
    ensures r != [] ==> !IsSpace(r[0])
  {
    if s != [] && IsSpace(s[0]) then TrimStart(s[1..]) else s
  }

  /** `s` without its trailing white space. */
  function TrimEnd(s: string): (r: string)
    ensures |r| <= |s| && r == s[..|r|]
    ensures forall k :: |r| <= k < |s| ==> IsSpace(s[k])
    ensures r != [] ==> !IsSpace(r[|r| - 1])
  {
    if s != [] && IsSpace(s[|s| - 1]) then TrimEnd(s[..|s| - 1]) else s
  }

  /** `s.trim()`. */
  function Trim(s: string): string {
    TrimEnd(TrimStart(s))
  }

  /** The length and value of a decimal literal read from the front of a string. */
  datatype Scan = Scan(len: nat, value: real)

  /** Whether an unsigned literal starts at position `i` of `t`: a digit, or
      a point followed by a digit. */
  predicate LiteralAt(t: string, i: nat) {
    i < |t| && (IsDigit(t[i]) || (t[i] == '.' && i + 1 < |t| && IsDigit(t[i + 1])))
  }

  /** Whether `t` starts with a literal, after an optional sign. */
  predicate LiteralStart(t: string) {
    LiteralAt(t, 0) || (|t| > 0 && (t[0] == '+' || t[0] == '-') && LiteralAt(t, 1))
  }

  /** The longest prefix of `t` of the form `[+-]? (digits ('.' digits?)? | '.' digits)`,
      with its value, or `None` when `t` does not start with one. */
  function ScanDecimal(t: string): (r: Option<Scan>)
    ensures r.Some? ==> 0 < r.value.len <= |t|
    ensures r.Some? <==> LiteralStart(t)
  {
    var si := SignLength(t);
    match ScanUnsigned(t, si)
    case None => None
    case Some(sc) => Some(Scan(sc.len, if MinusSign(t) then -sc.value else sc.value))
  }

  /** The length of the sign `ScanDecimal` reads at the front of `t`. */
  function SignLength(t: string): (n: nat)
    ensures n <= |t|
  {
    if |t| > 0 && (t[0] == '+' || t[0] == '-') then 1 else 0
  }

  /** Whether `t` starts with a minus sign. */
  predicate MinusSign(t: string) {
    |t| > 0 && t[0] == '-'
  }

  /** The unsigned part `digits ('.' digits?)? | '.' digits` of a literal
      from position `i` on: where it ends and its value. */
  function ScanUnsigned(t: string, i: nat): (r: Option<Scan>)
    requires i <= |t|
    ensures r.Some? ==> i < r.value.len <= |t|
    ensures r.Some? <==> LiteralAt(t, i)
  {
    var ie := DigitRunEnd(t, i);
    if ie < |t| && t[ie] == '.' then
      var fe := DigitRunEnd(t, ie + 1);
      if ie == i && fe == ie + 1 then None
      else Some(Scan(fe, DigitsValue(t[i..ie]) as real + FractionValue(t[ie + 1..fe])))
    else if ie == i then None
    else Some(Scan(ie, DigitsValue(t[i..ie]) as real))
  }

  /** `Number(s)` for a string `s`. */
  function Number(s: string): Option<real> {
    var t := Trim(s);
    if t == [] then Some(0.0)
    else match ScanDecimal(t)
      case Some(sc) => if sc.len == |t| then Some(sc.value) else None
      case None => None
  }

  /** `parseFloat(s)` for a string `s`. */
  function ParseFloat(s: string): Option<real> {
    match ScanDecimal(TrimStart(s))
    case Some(sc) => Some(sc.value)
    case None => None
  }

  /** `parseFloat` gives `NaN` exactly when no literal starts the text after
      its leading white space. */
  lemma {:induction false} ParseFloatNaN(s: string)
    ensures ParseFloat(s).None? <==> !LiteralStart(TrimStart(s))
  {
  }

  /** `Number` gives `NaN` for a text with something other than white space
      in it that does not start, after white space, with a literal. */
  lemma {:induction false} NumberNaN(s: string)
    requires Trim(s) != [] && !LiteralStart(TrimStart(s))
    ensures Number(s).None?
  {
    var u := TrimStart(s);
    assert u != [] by { assert Trim(s) == TrimEnd(u); }
    assert Trim(s)[0] == u[0];
    assert |Trim(s)| > 1 ==> Trim(s)[1] == u[1];
    assert !LiteralStart(Trim(s));
  }

  /** A run of digits from `i` to `j` that is followed by a non-digit or the
      end ends at `j`. */
  lemma {:induction false} DigitRunEndsAt(t: string, i: nat, j: nat)
    requires i <= j <= |t|
    requires forall k :: i <= k < j ==> IsDigit(t[k])
    requires j < |t| ==> !IsDigit(t[j])
    ensures DigitRunEnd(t, i) == j
    decreases j - i
  {
    if i < j {
      DigitRunEndsAt(t, i + 1, j);
    }
  }

  /** A digit run at the front of `ds + rest`, stopped by anything that cannot
      continue a literal, reads as the digits' value with length `|ds|`. */
  lemma {:induction false} ScanDigits(ds: string, rest: string)
    requires ds != [] && AllDigits(ds)
    requires rest == [] || (!IsDigit(rest[0]) && rest[0] != '.')
    ensures ScanDecimal(ds + rest) == Some(Scan(|ds|, DigitsValue(ds) as real))
  {
    var t := ds + rest;
    assert t[0] == ds[0];
    assert t[..|ds|] == ds;
    forall k | 0 <= k < |ds|
      ensures IsDigit(t[k])
    {
      assert t[k] == ds[k];
    }
    assert |ds| < |t| ==> t[|ds|] == rest[0];
    DigitRunEndsAt(t, 0, |ds|);
    assert !(|ds| < |t| && t[|ds|] == '.');
    assert t[0..|ds|] == ds;
    assert FractionValue("") == 0.0;
  }

  /** The optional sign in front of a literal. */
  datatype Sign = Unsigned | Plus | Minus

  function SignText(sg: Sign): (r: string)
    ensures |r| == if sg == Unsigned then 0 else 1
  {
    match sg
    case Unsigned => ""
    case Plus => "+"
    case Minus => "-"
  }

  /** The value a sign gives a magnitude. */
  function Signed(sg: Sign, v: real): real {
    if sg == Minus then -v else v
  }

  /** The value of the literal `[+-]ds.fs`. */
  function DecimalValue(sg: Sign, ds: string, fs: string): real
    requires AllDigits(ds) && AllDigits(fs)
  {
    Signed(sg, DigitsValue(ds) as real + FractionValue(fs))
  }

  /** The sign is read when it is there, and a digit or a point follows it. */
  lemma {:induction false} SignAt(sg: Sign, u: string, q: string)
    requires u != [] && (IsDigit(u[0]) || u[0] == '.')
    ensures SignLength(SignText(sg) + u + q) == |SignText(sg)|
    ensures MinusSign(SignText(sg) + u + q) <==> sg == Minus
  {
    var t := SignText(sg) + u + q;
    if sg == Unsigned {
      assert t[0] == u[0];
    } else {
      assert t[0] == SignText(sg)[0];
    }
  }

  /** `ScanDecimal` on a literal without a point, given the length of its
      sign and its digits. */
  lemma {:induction false} ScannedInteger(t: string, n: nat, ds: string)
    requires ds != [] && AllDigits(ds)
    requires SignLength(t) == n && n + |ds| <= |t|
    requires DigitRunEnd(t, n) == n + |ds| && t[n..n + |ds|] == ds
    requires !(n + |ds| < |t| && t[n + |ds|] == '.')
    ensures ScanUnsigned(t, n) == Some(Scan(n + |ds|, DigitsValue(ds) as real))
  {
  }

  /** `ScanDecimal` on a literal with a point, given the length of its sign,
      its integer digits and its fraction digits. */
  lemma {:induction false} ScannedFraction(t: string, n: nat, ds: string, fs: string)
    requires AllDigits(ds) && AllDigits(fs) && (ds != [] || fs != [])
    requires SignLength(t) == n && n + |ds| + 1 + |fs| <= |t|
    requires DigitRunEnd(t, n) == n + |ds| && t[n + |ds|] == '.'
    requires DigitRunEnd(t, n + |ds| + 1) == n + |ds| + 1 + |fs|
    requires t[n..n + |ds|] == ds && t[n + |ds| + 1..n + |ds| + 1 + |fs|] == fs
    ensures ScanUnsigned(t, n) == Some(Scan(n + |ds| + 1 + |fs|, DigitsValue(ds) as real + FractionValue(fs)))
  {
  }

  /** The same with the sign applied: what `ScanDecimal` reads. */
  lemma {:induction false} ScannedSignedFraction(t: string, sg: Sign, ds: string, fs: string)
    requires AllDigits(ds) && AllDigits(fs) && (ds != [] || fs != [])
    requires var n := |SignText(sg)|;
             && SignLength(t) == n && (MinusSign(t) <==> sg == Minus)
             && n + |ds| + 1 + |fs| <= |t|
             && DigitRunEnd(t, n) == n + |ds| && t[n + |ds|] == '.'
             && DigitRunEnd(t, n + |ds| + 1) == n + |ds| + 1 + |fs|
             && t[n..n + |ds|] == ds && t[n + |ds| + 1..n + |ds| + 1 + |fs|] == fs
    ensures ScanDecimal(t) ==
              Some(Scan(|SignText(sg)| + |ds| + 1 + |fs|, DecimalValue(sg, ds, fs)))
  {
    ScannedFraction(t, |SignText(sg)|, ds, fs);
  }

  /** A run of digits placed after `p` and stopped by a non-digit or the end
      is the digit run that starts at `|p|`. */
  lemma {:induction false} DigitsAt(p: string, ds: string, rest: string)
    requires AllDigits(ds) && (rest == [] || !IsDigit(rest[0]))
    ensures var t := p + (ds + rest);
            && |p| + |ds| <= |t| && DigitRunEnd(t, |p|) == |p| + |ds|
            && t[|p|..|p| + |ds|] == ds
            && (rest != [] ==> t[|p| + |ds|] == rest[0])
  {
    var t := p + (ds + rest);
    forall k | |p| <= k < |p| + |ds|
      ensures IsDigit(t[k])
    {
      assert t[k] == ds[k - |p|];
    }
    assert |t| == |p| + |ds| + |rest|;
    if rest != [] {
      assert t[|p| + |ds|] == rest[0];
    }
    DigitRunEndsAt(t, |p|, |p| + |ds|);
    assert t[|p|..|p| + |ds|] == ds;
  }

  /** Where the sign and the digits of `SignText(sg) + (ds + rest)` end. */
  lemma {:induction false} IntegerLayout(sg: Sign, ds: string, rest: string)
    requires ds != [] && AllDigits(ds)
    requires rest == [] || (!IsDigit(rest[0]) && rest[0] != '.')
    ensures var t := SignText(sg) + (ds + rest);
            var n := |SignText(sg)|;
            && SignLength(t) == n && (MinusSign(t) <==> sg == Minus)
            && n + |ds| <= |t| && DigitRunEnd(t, n) == n + |ds| && t[n..n + |ds|] == ds
            && !(n + |ds| < |t| && t[n + |ds|] == '.')
  {
    assert (ds + rest)[0] == ds[0];
    SignAt(sg, ds + rest, "");
    assert SignText(sg) + (ds + rest) + "" == SignText(sg) + (ds + rest);
    DigitsAt(SignText(sg), ds, rest);
  }

  /** A signed digit run stopped by anything that cannot continue a literal
      reads as the signed value of the digits. */
  lemma {:induction false} ScanInteger(sg: Sign, ds: string, rest: string)
    requires ds != [] && AllDigits(ds)
    requires rest == [] || (!IsDigit(rest[0]) && rest[0] != '.')
    ensures ScanDecimal(SignText(sg) + (ds + rest)) ==
              Some(Scan(|SignText(sg)| + |ds|, Signed(sg, DigitsValue(ds) as real)))
  {
    IntegerLayout(sg, ds, rest);
    ScannedInteger(SignText(sg) + (ds + rest), |SignText(sg)|, ds);
  }

  /** Integer digits placed after `p` and followed by a point form the digit
      run that starts at `|p|`. */
  lemma {:induction false} DigitsBeforePoint(p: string, ds: string, q: string)
    requires AllDigits(ds)
    ensures var t := p + (ds + ".") + q;
            && |p| + |ds| < |t| && t[|p| + |ds|] == '.'
            && DigitRunEnd(t, |p|) == |p| + |ds| && t[|p|..|p| + |ds|] == ds
  {
    var t := p + (ds + ".") + q;
    forall k | |p| <= k < |p| + |ds|
      ensures IsDigit(t[k])
    {
      assert t[k] == ds[k - |p|];
    }
    assert t[|p| + |ds|] == '.';
    DigitRunEndsAt(t, |p|, |p| + |ds|);
    assert t[|p|..|p| + |ds|] == ds;
  }

  /** Where the sign, the integer digits and the fraction digits of
      `SignText(sg) + (ds + ".") + (fs + rest)` end. */
  lemma {:induction false} FractionLayout(sg: Sign, ds: string, fs: string, rest: string)
    requires AllDigits(ds) && AllDigits(fs) && (ds != [] || fs != [])
    requires rest == [] || !IsDigit(rest[0])
    ensures var t := SignText(sg) + (ds + ".") + (fs + rest);
            var n := |SignText(sg)|;
            && SignLength(t) == n && (MinusSign(t) <==> sg == Minus)
            && n + |ds| + 1 + |fs| <= |t|
            && DigitRunEnd(t, n) == n + |ds| && t[n + |ds|] == '.'
            && DigitRunEnd(t, n + |ds| + 1) == n + |ds| + 1 + |fs|
            && t[n..n + |ds|] == ds && t[n + |ds| + 1..n + |ds| + 1 + |fs|] == fs
  {
    assert (ds + ".")[0] == if ds != [] then ds[0] else '.';
    SignAt(sg, ds + ".", fs + rest);
    DigitsBeforePoint(SignText(sg), ds, fs + rest);
    DigitsAt(SignText(sg) + (ds + "."), fs, rest);
  }

  /** A signed literal with a decimal point, stopped by anything that is not
      a digit, reads as the signed value of its integer and fraction digits. */
  lemma {:induction false} ScanFraction(sg: Sign, ds: string, fs: string, rest: string)
    requires AllDigits(ds) && AllDigits(fs) && (ds != [] || fs != [])
    requires rest == [] || !IsDigit(rest[0])
    ensures ScanDecimal(SignText(sg) + (ds + ".") + (fs + rest)) ==
              Some(Scan(|SignText(sg)| + |ds| + 1 + |fs|, DecimalValue(sg, ds, fs)))
  {
    FractionLayout(sg, ds, fs, rest);
    ScannedSignedFraction(SignText(sg) + (ds + ".") + (fs + rest), sg, ds, fs);
  }

  /** `Number` and `parseFloat` read a whole signed integer literal as its
      value; in particular a negative count or price stays negative. */
  lemma {:induction false} SignedIntegerParses(sg: Sign, ds: string)
    requires ds != [] && AllDigits(ds)
    ensures Number(SignText(sg) + ds) == Some(Signed(sg, DigitsValue(ds) as real))
    ensures ParseFloat(SignText(sg) + ds) == Some(Signed(sg, DigitsValue(ds) as real))
  {
    ScanInteger(sg, ds, "");
    assert ds + "" == ds;
    LiteralEnds(sg, ds);
    WholeLiteral(SignText(sg) + ds, Signed(sg, DigitsValue(ds) as real));
  }


  /** `Number` and `parseFloat` read a whole signed decimal literal such as
      `85.5` or `-0.25` as its value. */
  lemma {:induction false} SignedDecimalParses(sg: Sign, ds: string, fs: string)
    requires AllDigits(ds) && AllDigits(fs) && (ds != [] || fs != [])
    ensures Number(SignText(sg) + (ds + ".") + fs) == Some(DecimalValue(sg, ds, fs))
    ensures ParseFloat(SignText(sg) + (ds + ".") + fs) == Some(DecimalValue(sg, ds, fs))
  {
    var t := SignText(sg) + (ds + ".") + fs;
    assert t != [] && !IsSpace(t[0]) && !IsSpace(t[|t| - 1]) by {
      var u := ds + "." + fs;
      assert t == SignText(sg) + u;
      assert u[0] == if ds != [] then ds[0] else '.';
      assert u[|u| - 1] == if fs != [] then fs[|fs| - 1] else '.';
      LiteralEnds(sg, u);
    }
    assert ScanDecimal(t) == Some(Scan(|t|, DecimalValue(sg, ds, fs))) by {
      ScanFraction(sg, ds, fs, "");
      assert fs + "" == fs;
    }
    WholeLiteral(t, DecimalValue(sg, ds, fs));
  }

  /** A string with no white space at either end is its own trim. */
  lemma {:induction false} Untrimmed(t: string)
    requires t != [] && !IsSpace(t[0]) && !IsSpace(t[|t| - 1])
    ensures TrimStart(t) == t && TrimEnd(t) == t && Trim(t) == t
  {
  }

  /** A signed literal neither starts nor ends with white space. */
  lemma {:induction false} LiteralEnds(sg: Sign, u: string)
    requires u != [] && (IsDigit(u[0]) || u[0] == '.') && (IsDigit(u[|u| - 1]) || u[|u| - 1] == '.')
    ensures var t := SignText(sg) + u; t != [] && !IsSpace(t[0]) && !IsSpace(t[|t| - 1])
  {
    var t := SignText(sg) + u;
    assert t[0] == if sg == Unsigned then u[0] else SignText(sg)[0];
    assert t[|t| - 1] == u[|u| - 1];
  }

  /** A literal that `ScanDecimal` reads to its end, with no white space
      around it, is read as the same value by `Number` and `parseFloat`. */
  lemma {:induction false} WholeLiteral(t: string, v: real)
    requires t != [] && !IsSpace(t[0]) && !IsSpace(t[|t| - 1])
    requires ScanDecimal(t) == Some(Scan(|t|, v))
    ensures Number(t) == Some(v) && ParseFloat(t) == Some(v)
  {
    Untrimmed(t);
  }

  /** The digits of the price `450000`. */
  lemma DigitsValueExample()
    ensures AllDigits("450000") && DigitsValue("450000") == 450000
  {
    assert "450000"[..5] == "45000";
    assert "45000"[..4] == "4500";
    assert "4500"[..3] == "450";
    assert "450"[..2] == "45";
    assert "45"[..1] == "4";
    assert "4"[..0] == "";
  }

  /** A plain digit string is read as the integer it denotes by both `Number`
      and `parseFloat`. */
  lemma {:induction false} DigitStringParses(ds: string)
    requires ds != [] && AllDigits(ds)
    ensures Number(ds) == Some(DigitsValue(ds) as real)
    ensures ParseFloat(ds) == Some(DigitsValue(ds) as real)
  {
    ScanDigits(ds, "");
    assert ds + "" == ds;
    WholeLiteral(ds, DigitsValue(ds) as real);
  }

  /** `parseFloat` stops at the first character that cannot continue the
      literal, so a price followed by text (`"450000 BRL"`) still reads as its
      digits. */
  lemma {:induction false} ParseFloatIgnoresTrailingText(ds: string, rest: string)
    requires ds != [] && AllDigits(ds)
    requires rest == [] || (!IsDigit(rest[0]) && rest[0] != '.')
    ensures ParseFloat(ds + rest) == Some(DigitsValue(ds) as real)
  {
    var t := ds + rest;
    assert TrimStart(t) == t by { assert t[0] == ds[0]; }
    assert ScanDecimal(t) == Some(Scan(|ds|, DigitsValue(ds) as real)) by { ScanDigits(ds, rest); }
  }

  /** `Number` rejects a digit string followed by text that is not white space,
      where `parseFloat` reads the digits. */
  lemma {:induction false} NumberRejectsTrailingText(ds: string, rest: string)
    requires ds != [] && AllDigits(ds)
    requires rest != [] && !IsDigit(rest[0]) && rest[0] != '.'
    requires exists k :: 0 <= k < |rest| && !IsSpace(rest[k])
    ensures Number(ds + rest) == None
  {
    var s := ds + rest;
    assert s[0] == ds[0];
    assert TrimStart(s) == s;
    var t := TrimEnd(s);
    var k :| 0 <= k < |rest| && !IsSpace(rest[k]);
    assert s[|ds| + k] == rest[k];
    assert |t| > |ds|;
    var rest' := t[|ds|..];
    assert t == ds + rest';
    assert rest'[0] == rest[0];
    ScanDigits(ds, rest');
  }
}
