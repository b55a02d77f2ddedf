/** `parsePrimitiveFromString` (webmetric.go) and the `strconv` conversions it
    chains: ParseInt in base 10 with 64 bits and ParseBool are written out;
    whether ParseFloat accepts a string is an injected predicate. */
module Primitive {
  import opened Wrappers

  const MinInt64: int := -0x8000_0000_0000_0000
  const MaxInt64: int := 0x7fff_ffff_ffff_ffff

  /** Go's int64. */
  newtype int64 = x: int | -0x8000_0000_0000_0000 <= x <= 0x7fff_ffff_ffff_ffff

  /** Whether strconv.ParseFloat(s, 64) returns no error. */
  type FloatAcceptor = string -> bool

  /** The dynamic value behind the `interface{}` that parsePrimitiveFromString
      returns. A float64 is kept as the literal it was parsed from: its binary
      value is not part of this model. */
  datatype Value = Int(i: int64) | Float(literal: string) | Bool(b: bool) | Str(s: string)

  predicate IsDigit(c: char) { '0' <= c <= '9' }

  predicate IsDigits(s: string) { forall i :: 0 <= i < |s| ==> IsDigit(s[i]) }

  function DigitValue(c: char): nat
    requires IsDigit(c)
  {
    (c as int) - ('0' as int)
  }

  function Digit(d: nat): char
    requires d < 10
  {
    (('0' as int) + d) as char
  }

  /** The number a string of decimal digits denotes, most significant first. */
  function DigitsValue(s: string): nat
    requires IsDigits(s)
  {
    if s == [] then 0 else DigitsValue(s[..|s| - 1]) * 10 + DigitValue(s[|s| - 1])
  }

  /** strconv.ParseInt(s, 10, 64): an optional sign, then one or more decimal
      digits (no base prefix and no underscores in base 10), denoting a value
      within int64; a syntax error and a range error both reject. */
  function ParseInt(s: string): Option<int64>
  {
    if s == [] then None
    else
      var neg := s[0] == '-';
      var digits := if s[0] == '+' || s[0] == '-' then s[1..] else s;
      if digits == [] || !IsDigits(digits) then None
      else
        var u: int := DigitsValue(digits);
        var v := if neg then -u else u;
        if MinInt64 <= v <= MaxInt64 then Some(v as int64) else None
  }

  /** strconv.ParseBool: the fixed list of words it accepts. */
  function ParseBool(s: string): Option<bool>
  {
    if s in {"1", "t", "T", "TRUE", "true", "True"} then Some(true)
    else if s in {"0", "f", "F", "FALSE", "false", "False"} then Some(false)
    else None
  }

  /** Decimal rendering of a natural number, without leading zeros. */
  function FormatNat(n: nat): string
  {
    if n < 10 then [Digit(n)] else FormatNat(n / 10) + [Digit(n % 10)]
  }

  /** strconv.FormatInt(i, 10), which is also how fmt prints an int64. */
  function FormatInt(i: int64): string
  {
    if i < 0 then "-" + FormatNat(-(i as int)) else FormatNat(i as int)
  }

  /** strconv.FormatBool, which is also how fmt prints a bool. */
  function FormatBool(b: bool): string
  {
    if b then "true" else "false"
  }

  /** Digits without a superfluous leading zero. */
  predicate NoLeadingZero(d: string)
  {
    d != [] && IsDigits(d) && (d[0] != '0' || |d| == 1)
  }

  /** The only spelling FormatInt produces: no '+', no leading zeros, no "-0". */
  predicate IsCanonicalInt(s: string)
  {
    if s != [] && s[0] == '-' then NoLeadingZero(s[1..]) && s[1..] != "0"
    else NoLeadingZero(s)
  }

  /** parsePrimitiveFromString: int64 first, then float64, then bool, and
      otherwise the string itself; it never fails. */
  function ParsePrimitiveFromString(s: string, floatOk: FloatAcceptor): (r: Value)
    ensures r.Int? <==> ParseInt(s).Some?
    ensures r.Int? ==> ParseInt(s) == Some(r.i)
    ensures r.Float? <==> ParseInt(s).None? && floatOk(s)
    ensures r.Bool? <==> ParseInt(s).None? && !floatOk(s) && ParseBool(s).Some?
    ensures r.Bool? ==> ParseBool(s) == Some(r.b)
    ensures r.Float? || r.Str? ==> r == Float(s) || r == Str(s)
  {
    match ParseInt(s)
    case Some(i) => Int(i)
    case None =>
      if floatOk(s) then Float(s)
      else
        match ParseBool(s)
        case Some(b) => Bool(b)
        case None => Str(s)
  }

  /** How fmt prints the value again; a float's rendering is not modelled. */
  function FormatValue(v: Value): string
  {
    match v
    case Int(i) => FormatInt(i)
    case Float(literal) => literal
    case Bool(b) => FormatBool(b)
    case Str(s) => s
  }

  lemma {:induction false} FormatNatDigits(n: nat)
    ensures NoLeadingZero(FormatNat(n)) && DigitsValue(FormatNat(n)) == n
  {
    if n >= 10 {
      FormatNatDigits(n / 10);
      var p := FormatNat(n / 10);
      var s := p + [Digit(n % 10)];
      assert s[..|s| - 1] == p;
      assert IsDigits(s) by {
        forall i | 0 <= i < |s| ensures IsDigit(s[i]) {
          if i < |p| { assert s[i] == p[i]; }
        }
      }
    }
  }

  lemma {:induction false} LeadingNonzeroPositive(d: string)
    requires NoLeadingZero(d) && d[0] != '0'
    ensures DigitsValue(d) >= 1
  {
    if |d| > 1 {
      var p := d[..|d| - 1];
      assert p[0] == d[0];
      LeadingNonzeroPositive(p);
    }
  }

  /** A digit string without leading zeros is exactly FormatNat of its value. */
  lemma {:induction false} FormatDigitsValue(d: string)
    requires NoLeadingZero(d)
    ensures FormatNat(DigitsValue(d)) == d
  {
    if |d| > 1 {
      var p := d[..|d| - 1];
      assert p[0] == d[0];
      LeadingNonzeroPositive(p);
      FormatDigitsValue(p);
      assert d == p + [d[|d| - 1]];
    }
  }

  lemma FormatIntCanonical(i: int64)
    ensures IsCanonicalInt(FormatInt(i))
  {
    if i < 0 {
      var s := FormatInt(i);
      FormatNatDigits(-(i as int));
      assert s[1..] == FormatNat(-(i as int));
    } else {
      FormatNatDigits(i as int);
    }
  }

  /** Every int64 survives formatting and parsing back. */
  lemma ParseFormatInt(i: int64)
    ensures ParseInt(FormatInt(i)) == Some(i)
  {
    var s := FormatInt(i);
    if i < 0 {
      FormatNatDigits(-(i as int));
      assert s[1..] == FormatNat(-(i as int));
    } else {
      FormatNatDigits(i as int);
    }
  }

  /** Parsing then formatting gives the text back exactly when the text was
      already in canonical form; "+7", "007" and "-0" come back changed. */
  lemma FormatParseInt(s: string)
    requires ParseInt(s).Some?
    ensures FormatInt(ParseInt(s).value) == s <==> IsCanonicalInt(s)
  {
    var i := ParseInt(s).value;
    FormatIntCanonical(i);
    if IsCanonicalInt(s) {
      if s[0] == '-' {
        FormatDigitsValue(s[1..]);
        LeadingNonzeroPositive(s[1..]);
        assert s == "-" + s[1..];
      } else {
        FormatDigitsValue(s);
      }
    }
  }

  /** A canonical int64 literal is always classified Int, never Float or Bool;
      so "1" and "0" are integers even though ParseBool would accept them. */
  lemma IntLiteralStaysInt(i: int64, floatOk: FloatAcceptor)
    ensures ParsePrimitiveFromString(FormatInt(i), floatOk) == Int(i)
  {
    ParseFormatInt(i);
  }

  /** Printing the classified value reproduces the input exactly, except for
      an integer not in canonical form or a bool word other than "true" and
      "false". */
  lemma FormatValueRoundTrip(s: string, floatOk: FloatAcceptor)
    requires !ParsePrimitiveFromString(s, floatOk).Float?
    ensures var v := ParsePrimitiveFromString(s, floatOk);
            FormatValue(v) == s <==>
              (v.Int? ==> IsCanonicalInt(s)) && (v.Bool? ==> s == "true" || s == "false")
  {
    if ParseInt(s).Some? {
      FormatParseInt(s);
    }
  }
}
