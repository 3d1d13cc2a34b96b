/**
  Values of a normalised log record and the two rules that decide how a
  value is written: identifier validity (may it appear bare?) and value
  rendering (its own text, `NULL`/`true`/`false`, or JSON).
 */
module Values {

  datatype Option<+T> = None | Some(value: T)

  /** A value as the formatter receives it after record normalisation. */
  datatype Value =
    | Null
    | Bool(b: bool)
    | Int(i: int)
      /** Floats stay opaque: `text` is PHP's own string cast of the float. */
    | Float(text: string)
    | Str(s: string)
      /** A PHP array: its entries in iteration order, keys as strings. */
    | Arr(entries: seq<(string, Value)>)
      /** An object, with what the normaliser makes of it: `None` when it throws. */
    | Obj(normalized: Option<Value>)

  /** The JSON encoder of the normaliser, left uninterpreted. */
  type Json = Value -> string

  /** PCRE `\s` without the UTF flag: space, tab, LF, VT, FF, CR. */
  predicate IsPcreSpace(c: char)
  {
    c == ' ' || 0x09 <= c as int <= 0x0D
  }

  /** The character class `[\x00-\x1F\x7F"=\s]` of the identifier check. */
  predicate InForbiddenClass(c: char)
    ensures InForbiddenClass(c) <==> c as int <= 0x20 || c as int == 0x7F || c == '"' || c == '='
  {
    c as int <= 0x1F || c as int == 0x7F || c == '"' || c == '=' || IsPcreSpace(c)
  }

  /** Does `preg_match` with the pattern `[\x00-\x1F\x7F"=\s]` find a match in `s`: is some character of `s` in the class? */
  predicate MatchesClass(s: string)
  {
    exists i :: 0 <= i < |s| && InForbiddenClass(s[i])
  }

  /** May this value appear as a bare (unquoted) key or value? */
  predicate IsValidIdent(v: Value)
  {
    match v
    case Str(s) => !MatchesClass(s) && s != ""
    case Bool(_) => false
    case Int(_) => true
    case Float(_) => true
    case _ => false
  }

  /** A string is a valid identifier exactly when it is non-empty and free of the class. */
  lemma ValidStringIff(s: string)
    ensures IsValidIdent(Str(s)) <==>
      s != "" && forall i :: 0 <= i < |s| ==> !InForbiddenClass(s[i])
  {
  }

  /** Only non-empty clean strings, ints and floats are valid: never booleans, null, arrays or objects. */
  lemma ValidIdentIff(v: Value)
    ensures IsValidIdent(v) <==>
      v.Int? || v.Float? ||
      (v.Str? && v.s != "" && forall i :: 0 <= i < |v.s| ==> v.s[i] as int > 0x20 && v.s[i] as int != 0x7F && v.s[i] != '"' && v.s[i] != '=')
  {
    if v.Str? {
      ValidStringIff(v.s);
    }
  }

  function DigitChar(d: nat): (c: char)
    requires d < 10
    ensures '0' <= c <= '9'
  {
    "0123456789"[d]
  }

  /** Decimal digits of a natural number, most significant first. */
  function Digits(n: nat): (r: string)
    ensures r != ""
    ensures forall k :: 0 <= k < |r| ==> '0' <= r[k] <= '9'
    decreases n
  {
    if n < 10 then [DigitChar(n)] else Digits(n / 10) + [DigitChar(n % 10)]
  }

  /** Numeric value of a string of decimal digits, read most significant first. */
  function DigitsValue(s: string): int
  {
    if s == [] then 0 else 10 * DigitsValue(s[..|s| - 1]) + (s[|s| - 1] as int - '0' as int)
  }

  lemma {:induction false} DigitsRoundTrip(n: nat)
    ensures DigitsValue(Digits(n)) == n
    decreases n
  {
    if n >= 10 {
      DigitsRoundTrip(n / 10);
      var d := Digits(n / 10) + [DigitChar(n % 10)];
      assert d[..|d| - 1] == Digits(n / 10);
    }
  }

  /** PHP's `(string)` cast of an integer. */
  function IntText(i: int): string
  {
    if i < 0 then "-" + Digits(-i) else Digits(i)
  }

  /** The text of an integer is always a bare token, which is why every int may appear unquoted. */
  lemma IntTextIsBare(i: int)
    ensures IsValidIdent(Str(IntText(i)))
    ensures i >= 0 ==> DigitsValue(IntText(i)) == i
    ensures i < 0 ==> IntText(i)[0] == '-' && DigitsValue(IntText(i)[1..]) == -i
  {
    IntTextClean(i);
    ValidStringIff(IntText(i));
    IntTextValue(i);
  }

  /** Reading the digits of an integer's text back gives its magnitude. */
  lemma IntTextValue(i: int)
    ensures i >= 0 ==> DigitsValue(IntText(i)) == i
    ensures i < 0 ==> IntText(i)[0] == '-' && DigitsValue(IntText(i)[1..]) == -i
  {
    if i < 0 {
      assert IntText(i)[1..] == Digits(-i);
      DigitsRoundTrip(-i);
    } else {
      DigitsRoundTrip(i);
    }
  }

  /** Every character of an integer's text is a digit or a leading minus sign. */
  lemma IntTextClean(i: int)
    ensures forall k :: 0 <= k < |IntText(i)| ==> !InForbiddenClass(IntText(i)[k])
  {
    var t := IntText(i);
    if i < 0 {
      var d := Digits(-i);
      assert forall k :: 1 <= k < |t| ==> t[k] == d[k - 1];
    }
  }

  /** `var_export` for null and booleans, the JSON encoder for everything else. */
  function ConvertToString(json: Json, v: Value): (r: string)
    ensures v.Null? ==> r == "NULL"
    ensures v.Bool? ==> r == (if v.b then "true" else "false")
    ensures !v.Null? && !v.Bool? ==> r == json(v)
  {
    match v
    case Null => "NULL"
    case Bool(b) => if b then "true" else "false"
    case _ => json(v)
  }

  /** The value part of a `key=value` pair. */
  function StringifyVal(json: Json, v: Value): (r: string)
    ensures IsValidIdent(v) && v.Str? ==> r == v.s
    ensures v.Int? ==> r == IntText(v.i) && IsValidIdent(Str(r))
    ensures v.Float? ==> r == v.text
    ensures v.Null? ==> r == "NULL"
    ensures v.Bool? ==> r == (if v.b then "true" else "false")
    ensures !IsValidIdent(v) && !v.Null? && !v.Bool? ==> r == json(v)
  {
    if IsValidIdent(v) then
      match v
      case Str(s) => s
      case Int(i) => IntTextIsBare(i); IntText(i)
      case Float(t) => t
    else ConvertToString(json, v)
  }

  /** Whatever `StringifyVal` writes bare contains no space, quote or `=`, so a logfmt reader can split on it. */
  lemma BareTextIsClean(json: Json, v: Value)
    requires v.Str? || v.Int?
    requires IsValidIdent(v)
    ensures StringifyVal(json, v) != ""
    ensures forall k :: 0 <= k < |StringifyVal(json, v)| ==>
      !InForbiddenClass(StringifyVal(json, v)[k])
  {
    ValidStringIff(StringifyVal(json, v));
  }
}
