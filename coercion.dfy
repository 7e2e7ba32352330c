/** Best-effort coercion of a snapshot value (`convert_to_type`): the string is
    read as an integer if it can be, else as a floating-point number if it can
    be, else it is kept as it is.

    Python's `int()` and `float()` are modelled by two decimal grammars:
      integer:  [+-]? digit+
      float:    [+-]? (digit+ ('.' digit*)? | '.' digit+) ([eE] [+-]? digit+)?
    and a float's value is the exact rational the literal denotes. */
module Coercion {
  import opened Wrappers

  /** A field value: Python's int, float or str. */
  datatype FieldValue = Int(i: int) | Flt(x: real) | Str(s: string)

  predicate IsDigit(c: char) { '0' <= c <= '9' }

  predicate AllDigits(s: string) { forall i :: 0 <= i < |s| ==> IsDigit(s[i]) }

  predicate IsSign(c: char) { c == '+' || c == '-' }

  function DigitValue(c: char): (d: nat)
    requires IsDigit(c)
    ensures d < 10
  {
    c as int - '0' as int
  }

  function DigitChar(d: nat): (c: char)
    requires d < 10
    ensures IsDigit(c) && DigitValue(c) == d
  {
    ('0' as int + d) as char
  }

  /** The number a string of decimal digits denotes, most significant first. */
  function DigitsValue(ds: string): nat
    requires AllDigits(ds)
  {
    if ds == [] then 0 else DigitsValue(ds[..|ds| - 1]) * 10 + DigitValue(ds[|ds| - 1])
  }

  function Pow10(n: nat): (p: nat)
    ensures p >= 1
  {
    if n == 0 then 1 else 10 * Pow10(n - 1)
  }

  /** An optional leading sign, split off: (negative?, rest). */
  function SplitSign(s: string): (string, bool)
  {
    if |s| > 0 && IsSign(s[0]) then (s[1..], s[0] == '-') else (s, false)
  }

  /** Index of the first character of `s` that is in `marks`, or |s| when there is none. */
  function IndexOf(s: string, marks: set<char>): (i: nat)
    ensures i <= |s|
    ensures forall j :: 0 <= j < i ==> s[j] !in marks
    ensures i < |s| ==> s[i] in marks
  {
    if s == [] then 0 else if s[0] in marks then 0 else 1 + IndexOf(s[1..], marks)
  }

  /** Python's `int(s)` on a decimal string; None where `int()` raises ValueError. */
  function ParseInt(s: string): Option<int>
  {
    var (body, negative) := SplitSign(s);
    if body != [] && AllDigits(body) then
      var n: int := DigitsValue(body);
      Some(if negative then -n else n)
    else
      None
  }

  /** An unsigned mantissa `digit+ ('.' digit*)?` or `'.' digit+`. */
  function ParseMantissa(m: string): Option<real>
  {
    var dot := IndexOf(m, {'.'});
    var whole := m[..dot];
    var frac := if dot < |m| then m[dot + 1..] else [];
    if AllDigits(whole) && AllDigits(frac) && |whole| + |frac| > 0 then
      Some(DigitsValue(whole) as real + DigitsValue(frac) as real / Pow10(|frac|) as real)
    else
      None
  }

  /** 10 raised to a possibly negative integer power. */
  function Scale(e: int): (r: real)
    ensures r > 0.0
  {
    if e >= 0 then Pow10(e) as real else 1.0 / Pow10(-e) as real
  }

  /** Python's `float(s)` on a decimal string; None where `float()` raises ValueError. */
  function ParseFloat(s: string): Option<real>
  {
    var (body, negative) := SplitSign(s);
    var e := IndexOf(body, {'e', 'E'});
    match ParseMantissa(body[..e])
    case None => None
    case Some(m) =>
      var exponent := if e == |body| then Some(0) else ParseInt(body[e + 1..]);
      match exponent
      case None => None
      case Some(x) => Some(if negative then -(m * Scale(x)) else m * Scale(x))
  }

  /** `convert_to_type`: integer first, then float, else the string itself. */
  function ConvertToType(s: string): FieldValue
  {
    match ParseInt(s)
    case Some(n) => Int(n)
    case None =>
      match ParseFloat(s)
      case Some(x) => Flt(x)
      case None => Str(s)
  }

  /** Python's `float(v)` applied to a field value. */
  function FloatOf(v: FieldValue): Option<real>
  {
    match v
    case Int(n) => Some(n as real)
    case Flt(x) => Some(x)
    case Str(s) => ParseFloat(s)
  }

  // ---------------------------------------------------------------------------
  // Printing integers: the inverse that `int()` undoes.

  /** Decimal digits of a natural number, without leading zeros. */
  function ShowNat(n: nat): (r: string)
    ensures r != [] && AllDigits(r)
  {
    if n < 10 then [DigitChar(n)] else ShowNat(n / 10) + [DigitChar(n % 10)]
  }

  /** Python's `str(n)` for an int. */
  function ShowInt(n: int): (r: string)
    ensures r != []
  {
    if n < 0 then "-" + ShowNat(-n) else ShowNat(n)
  }

  lemma {:induction false} DigitsValueOfShowNat(n: nat)
    ensures DigitsValue(ShowNat(n)) == n
  {
    var s := ShowNat(n);
    if n >= 10 {
      DigitsValueOfShowNat(n / 10);
      assert s[..|s| - 1] == ShowNat(n / 10);
    }
  }

  /** `int()` reads back every integer Python prints. */
  lemma ParseIntOfShowInt(n: int)
    ensures ParseInt(ShowInt(n)) == Some(n)
  {
    if n < 0 {
      DigitsValueOfShowNat(-n);
      assert SplitSign(ShowInt(n)) == (ShowNat(-n), true);
    } else {
      DigitsValueOfShowNat(n);
      assert SplitSign(ShowInt(n)) == (ShowNat(n), false);
    }
  }

  /** A printed integer is coerced back to the same integer, never to a float. */
  lemma ConvertShowInt(n: int)
    ensures ConvertToType(ShowInt(n)) == Int(n)
  {
    ParseIntOfShowInt(n);
  }

  // ---------------------------------------------------------------------------
  // How the two parses relate.

  /** Every integer literal is also a float literal, of the same value. */
  lemma IntLiteralIsFloatLiteral(s: string)
    requires ParseInt(s).Some?
    ensures ParseFloat(s) == Some(ParseInt(s).value as real)
  {
    var (body, negative) := SplitSign(s);
    assert IndexOf(body, {'e', 'E'}) == |body|;
    assert body[..|body|] == body;
    assert IndexOf(body, {'.'}) == |body|;
    assert ParseMantissa(body) == Some(DigitsValue(body) as real);
  }

  /** A float literal with no '.', 'e' or 'E' in it is an integer literal. */
  lemma PlainFloatLiteralIsIntLiteral(s: string)
    requires ParseFloat(s).Some?
    requires forall j :: 0 <= j < |s| ==> s[j] != '.' && s[j] != 'e' && s[j] != 'E'
    ensures ParseInt(s).Some?
  {
    var (body, negative) := SplitSign(s);
    assert forall j :: 0 <= j < |body| ==> body[j] != '.' && body[j] != 'e' && body[j] != 'E' by {
      if |s| > 0 && IsSign(s[0]) {
        assert forall j :: 0 <= j < |body| ==> body[j] == s[j + 1];
      }
    }
    var e := IndexOf(body, {'e', 'E'});
    assert e == |body|;
    assert body[..e] == body;
    assert IndexOf(body, {'.'}) == |body|;
    assert body[..IndexOf(body, {'.'})] == body;
  }

  /** Coercion keeps the number: `float(convert_to_type(s))` is `float(s)`. */
  lemma FloatOfConvert(s: string)
    ensures FloatOf(ConvertToType(s)) == ParseFloat(s)
  {
    if ParseInt(s).Some? {
      IntLiteralIsFloatLiteral(s);
    }
  }

  /** Coercion never fails: it falls back to the unchanged string exactly when
      the string is not a number at all. */
  lemma ConvertFallsBackToString(s: string)
    ensures ConvertToType(s).Str? <==> ParseFloat(s).None?
    ensures ConvertToType(s).Str? ==> ConvertToType(s) == Str(s)
  {
    if ParseInt(s).Some? {
      IntLiteralIsFloatLiteral(s);
    }
  }

  /** Integer parsing comes first: a number written without '.', 'e' or 'E'
      is coerced to an int, never to a float. */
  lemma ConvertPrefersInt(s: string)
    requires ParseFloat(s).Some?
    requires forall j :: 0 <= j < |s| ==> s[j] != '.' && s[j] != 'e' && s[j] != 'E'
    ensures ConvertToType(s).Int?
  {
    PlainFloatLiteralIsIntLiteral(s);
  }

  /** Integer literals become ints: "42" is 42, not 42.0. */
  lemma IntExamples()
    ensures ConvertToType("42") == Int(42)
    ensures ConvertToType("-7") == Int(-7)
  {
    assert DigitsValue("42") == 42 by { assert "42"[..1] == "4"; }
    assert SplitSign("-7") == ("7", true);
  }

  /** A decimal fraction becomes a float. */
  lemma DecimalExample()
    ensures ConvertToType("3.14") == Flt(3.14)
  {
    var s := "3.14";
    assert !IsDigit(s[1]);
    assert ParseInt(s) == None;
    assert IndexOf(s, {'.'}) == 1;
    assert s[..1] == "3" && s[2..] == "14";
    assert DigitsValue("14") == 14 by { assert "14"[..1] == "1"; }
    assert ParseMantissa(s) == Some(3.14);
    assert IndexOf(s, {'e', 'E'}) == 4;
    assert s[..4] == s;
  }

  /** An exponent literal is not an int, so it becomes a float: "1e3" is 1000.0. */
  lemma ExponentExample()
    ensures ConvertToType("1e3") == Flt(1000.0)
  {
    var s := "1e3";
    assert !IsDigit(s[1]);
    assert ParseInt(s) == None;
    assert IndexOf(s, {'e', 'E'}) == 1;
    assert s[..1] == "1" && s[2..] == "3";
    assert IndexOf("1", {'.'}) == 1;
    assert ParseMantissa("1") == Some(1.0);
    assert Pow10(3) == 1000;
  }

  /** A word is neither an int nor a float and is kept as it is. */
  lemma WordExample()
    ensures ConvertToType("on") == Str("on")
  {
    var s := "on";
    assert !IsDigit(s[0]);
    assert IndexOf(s, {'.'}) == 2;
    assert IndexOf(s, {'e', 'E'}) == 2;
    assert s[..2] == s;
  }
}
