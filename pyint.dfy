/**
  Python's `int(x)` on the values `Part.terminations` hands it: a string is read
  as a base-10 literal (surrounding whitespace, one sign and single underscores
  between digits allowed), a number or boolean is converted, and anything else is
  a `TypeError`. A string that is not a literal is a `ValueError`.
 */
module PyInt {
  import opened Json

  predicate IsDigit(c: char) { '0' <= c <= '9' }

  /** The whitespace `int()` skips around the literal of an ASCII string. */
  predicate IsSpace(c: char)
  {
    c == ' ' || c == '\t' || c == '\n' || c == '\r' || c == '\U{000B}' || c == '\U{000C}'
  }

  function StripStart(s: string): string
  {
    if s != [] && IsSpace(s[0]) then StripStart(s[1..]) else s
  }

  function StripEnd(s: string): string
  {
    if s != [] && IsSpace(s[|s| - 1]) then StripEnd(s[..|s| - 1]) else s
  }

  /** The string without the whitespace `int()` skips at either end. */
  function Strip(s: string): string
  {
    StripEnd(StripStart(s))
  }

  /**
    The digits of a base-10 literal: digits and underscores, starting and ending
    with a digit, with no two underscores in a row.
   */
  predicate DigitGroups(s: string)
  {
    && s != []
    && IsDigit(s[0]) && IsDigit(s[|s| - 1])
    && (forall k :: 0 <= k < |s| ==> IsDigit(s[k]) || s[k] == '_')
    && (forall k :: 0 <= k < |s| - 1 && s[k] == '_' ==> s[k + 1] != '_')
  }

  /** The literal with its underscores removed. */
  function Digits(s: string): (ds: string)
    ensures forall c :: c in ds ==> c in s && c != '_'
  {
    if s == [] then []
    else (if s[0] == '_' then [] else [s[0]]) + Digits(s[1..])
  }

  /** The number a string of decimal digits denotes. */
  function DigitsValue(ds: string): nat
    requires forall c :: c in ds ==> IsDigit(c)
  {
    if ds == [] then 0
    else
      var last := ds[|ds| - 1];
      assert last in ds;
      assert IsDigit(last);
      assert '0' as int <= last as int;
      var d: nat := last as int - '0' as int;
      DigitsValue(ds[..|ds| - 1]) * 10 + d
  }

  /** The sign of a stripped literal (true for '-') and the rest of it. */
  function SplitSign(t: string): (bool, string)
  {
    if t != [] && (t[0] == '-' || t[0] == '+') then (t[0] == '-', t[1..]) else (false, t)
  }

  /** `int(s)` for a string `s`. */
  function ParseInt(s: string): (r: Result<int>)
    ensures r.Err? ==> r.error == ValueError
  {
    var (negative, body) := SplitSign(Strip(s));
    if DigitGroups(body) then
      var n: int := DigitsValue(Digits(body));
      var v: int := if negative then -n else n;
      Ok(v)
    else
      Err(ValueError)
  }

  /** `int(x)` for a decoded JSON value. */
  function IntOf(v: Value): (r: Result<int>)
    ensures r.Err? && !v.Str? ==> r.error == TypeError
    ensures r.Err? && v.Str? ==> r.error == ValueError
    ensures v.Null? || v.Arr? || v.Obj? ==> r.Err?
  {
    match v
    case Str(s) => ParseInt(s)
    case Num(n) => Ok(n)
    case Bool(b) => Ok(if b then 1 else 0)
    case _ => Err(TypeError)
  }

  function DigitChar(d: nat): char
    requires d < 10
  {
    ('0' as int + d) as char
  }

  /** The decimal digits of `n`, without leading zeros. */
  function ShowNat(n: nat): (s: string)
    ensures s != [] && forall c :: c in s ==> IsDigit(c)
  {
    if n < 10 then [DigitChar(n)] else ShowNat(n / 10) + [DigitChar(n % 10)]
  }

  /** `str(n)`. */
  function Show(n: int): string
  {
    if n < 0 then "-" + ShowNat(-n) else ShowNat(n)
  }

  /** Reading back the digits of `n` gives `n`. */
  lemma {:induction false} DigitsValueShowNat(n: nat)
    ensures DigitsValue(ShowNat(n)) == n
  {
    if n >= 10 {
      DigitsValueShowNat(n / 10);
      var s := ShowNat(n);
      assert s[..|s| - 1] == ShowNat(n / 10);
    }
  }

  /** A string without underscores loses nothing to `Digits`. */
  lemma {:induction false} DigitsOfPlain(s: string)
    requires forall c :: c in s ==> IsDigit(c)
    ensures Digits(s) == s
  {
    if s != [] {
      assert forall c :: c in s[1..] ==> c in s;
      assert s[0] in s;
      DigitsOfPlain(s[1..]);
      assert s == [s[0]] + s[1..];
    }
  }

  /** A string with no whitespace at either end is its own strip. */
  lemma StripPlain(s: string)
    requires s != [] && !IsSpace(s[0]) && !IsSpace(s[|s| - 1])
    ensures Strip(s) == s
  {
  }

  /** A plain run of digits, signed or not, parses to the number it denotes. */
  lemma ParsePlainDigits(sign: string, digits: string)
    requires sign == "" || sign == "-"
    requires digits != [] && forall c :: c in digits ==> IsDigit(c)
    ensures ParseInt(sign + digits) == Ok(if sign == "-" then 0 - DigitsValue(digits) else DigitsValue(digits))
  {
    SignedPlain(sign, digits);
    DigitsOfPlain(digits);
    PlainGroups(digits);
  }

  /** A signed run of digits has no whitespace to strip, and its sign splits off. */
  lemma SignedPlain(sign: string, digits: string)
    requires sign == "" || sign == "-"
    requires digits != [] && forall c :: c in digits ==> IsDigit(c)
    ensures SplitSign(Strip(sign + digits)) == (sign == "-", digits)
  {
    var shown := sign + digits;
    assert digits[0] in digits && digits[|digits| - 1] in digits;
    assert shown[|shown| - 1] == digits[|digits| - 1];
    assert shown[0] == if sign == "" then digits[0] else '-';
    StripPlain(shown);
    if sign == "-" {
      assert shown[1..] == digits;
    } else {
      assert shown == digits;
    }
  }

  /** A non-empty run of digits is a literal's digit groups. */
  lemma PlainGroups(digits: string)
    requires digits != [] && forall c :: c in digits ==> IsDigit(c)
    ensures DigitGroups(digits)
  {
    assert forall k :: 0 <= k < |digits| ==> digits[k] in digits;
  }

  /** `int(str(n)) == n` for every integer. */
  lemma ParseShow(n: int)
    ensures ParseInt(Show(n)) == Ok(n)
  {
    var m: nat := if n < 0 then -n else n;
    DigitsValueShowNat(m);
    ParsePlainDigits(if n < 0 then "-" else "", ShowNat(m));
    assert Show(n) == (if n < 0 then "-" else "") + ShowNat(m);
  }

  /** Leading whitespace makes no difference. */
  lemma ParseSkipsLeadingSpace(c: char, s: string)
    requires IsSpace(c)
    ensures ParseInt([c] + s) == ParseInt(s)
  {
    assert ([c] + s)[1..] == s;
  }

  /** A string that parses holds a digit, and nothing but digits, underscores, signs and whitespace. */
  lemma ParsedCharacters(s: string)
    requires ParseInt(s).Ok?
    ensures exists k :: 0 <= k < |s| && IsDigit(s[k])
    ensures forall k :: 0 <= k < |s| ==>
              IsDigit(s[k]) || s[k] == '_' || s[k] == '-' || s[k] == '+' || IsSpace(s[k])
  {
    var t := Strip(s);
    var body := SplitSign(t).1;
    StripInside(s);
    assert body[0] in t;
    forall k | 0 <= k < |s|
      ensures IsDigit(s[k]) || s[k] == '_' || s[k] == '-' || s[k] == '+' || IsSpace(s[k])
    {
      if !IsSpace(s[k]) {
        assert s[k] in t;
        var j :| 0 <= j < |t| && t[j] == s[k];
        if t != [] && (t[0] == '-' || t[0] == '+') && j > 0 {
          assert t[j] == body[j - 1];
        }
      }
    }
  }

  /** Stripping keeps every character of the string that is not whitespace, and adds none. */
  lemma StripInside(s: string)
    ensures forall c :: c in Strip(s) ==> c in s
    ensures forall c :: c in s && !IsSpace(c) ==> c in Strip(s)
  {
    StripStartInside(s);
    StripEndInside(StripStart(s));
  }

  lemma {:induction false} StripStartInside(s: string)
    ensures forall c :: c in StripStart(s) ==> c in s
    ensures forall c :: c in s && !IsSpace(c) ==> c in StripStart(s)
  {
    if s != [] && IsSpace(s[0]) {
      StripStartInside(s[1..]);
    }
  }

  lemma {:induction false} StripEndInside(s: string)
    ensures forall c :: c in StripEnd(s) ==> c in s
    ensures forall c :: c in s && !IsSpace(c) ==> c in StripEnd(s)
  {
    if s != [] && IsSpace(s[|s| - 1]) {
      StripEndInside(s[..|s| - 1]);
    }
  }
}
