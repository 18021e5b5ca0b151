/** Scalars and string functions of PHP, as the plugin uses them. */
module Php {

  datatype Option<+T> = None | Some(value: T)

  /** A scalar as the plugin stores it in an option or reads it from a reply. */
  datatype Value = Null | Bool(b: bool) | Int(i: int) | Str(s: string)

  /** PHP's empty() on a string: the empty string and "0" are empty. */
  predicate EmptyString(s: string)
  {
    s == "" || s == "0"
  }

  /** PHP truthiness (the negation of empty()) of a scalar. */
  predicate Truthy(v: Value)
  {
    match v
    case Null => false
    case Bool(b) => b
    case Int(i) => i != 0
    case Str(s) => !EmptyString(s)
  }

  /** PHP truthiness of an optional string parameter (null, "" and "0" are falsy). */
  predicate TruthyString(s: Option<string>)
  {
    s.Some? && !EmptyString(s.value)
  }

  /** The characters that trim() strips by default. */
  predicate IsTrimSpace(c: char)
  {
    c == ' ' || c == '\t' || c == '\n' || c == '\r' || c == '\0' || c == '\U{0B}'
  }

  predicate IsSlash(c: char)
  {
    c == '/'
  }

  /** ltrim: drops the longest prefix whose characters all satisfy `drop`. */
  function TrimStart(s: string, drop: char -> bool): string
  {
    if s == [] || !drop(s[0]) then s else TrimStart(s[1..], drop)
  }

  /** ltrim keeps a suffix of its input, which does not start with a dropped character, and
      everything before that suffix is dropped. */
  lemma {:induction false} TrimStartDrops(s: string, drop: char -> bool)
    ensures var r := TrimStart(s, drop);
      && |r| <= |s| && r == s[|s| - |r|..]
      && (r == [] || !drop(r[0]))
      && forall i :: 0 <= i < |s| - |r| ==> drop(s[i])
  {
    if s != [] && drop(s[0]) {
      TrimStartDrops(s[1..], drop);
    }
  }

  /** rtrim: drops the longest suffix whose characters all satisfy `drop`. */
  function TrimEnd(s: string, drop: char -> bool): string
  {
    if s == [] || !drop(s[|s| - 1]) then s else TrimEnd(s[..|s| - 1], drop)
  }

  /** rtrim keeps a prefix of its input, which does not end in a dropped character, and
      everything after that prefix is dropped. */
  lemma {:induction false} TrimEndDrops(s: string, drop: char -> bool)
    ensures var r := TrimEnd(s, drop);
      && |r| <= |s| && r == s[..|r|]
      && (r == [] || !drop(r[|r| - 1]))
      && forall i :: |r| <= i < |s| ==> drop(s[i])
  {
    if s != [] && drop(s[|s| - 1]) {
      TrimEndDrops(s[..|s| - 1], drop);
    }
  }

  /** trim() with the default character list. */
  function Trim(s: string): string
  {
    TrimEnd(TrimStart(s, IsTrimSpace), IsTrimSpace)
  }

  /** rtrim($s, '/'). */
  function TrimSlashes(s: string): string
  {
    TrimEnd(s, IsSlash)
  }

  /** After rtrim($s, '/') the text no longer ends in a slash. */
  lemma TrimSlashesEnds(s: string)
    ensures var r := TrimSlashes(s);
      r == [] || r[|r| - 1] != '/'
  {
    TrimEndDrops(s, IsSlash);
  }

  predicate IsDigit(c: char)
  {
    '0' <= c <= '9'
  }

  predicate IsDigits(s: string)
  {
    |s| > 0 && forall i :: 0 <= i < |s| ==> IsDigit(s[i])
  }

  function DigitChar(d: nat): char
    requires d < 10
  {
    "0123456789"[d]
  }

  function DigitValue(c: char): nat
    requires IsDigit(c)
  {
    (c as int - '0' as int) as nat
  }

  /** The value of a string of decimal digits. */
  function DigitsValue(s: string): nat
    requires forall i :: 0 <= i < |s| ==> IsDigit(s[i])
  {
    if s == [] then 0 else DigitsValue(s[..|s| - 1]) * 10 + DigitValue(s[|s| - 1])
  }

  /** The decimal digits of a natural number, without leading zeros. */
  function Digits(n: nat): string
  {
    if n < 10 then [DigitChar(n)] else Digits(n / 10) + [DigitChar(n % 10)]
  }

  /** (string) $i for an integer. */
  function IntToString(i: int): string
  {
    if i < 0 then "-" + Digits(-i) else Digits(i)
  }

  /** (string) $v: the conversion PHP applies when a string function gets a scalar. */
  function ToStr(v: Value): string
  {
    match v
    case Null => ""
    case Bool(b) => if b then "1" else ""
    case Int(i) => IntToString(i)
    case Str(s) => s
  }

  /** The integer a scalar stands for in an arithmetic comparison. Decimal strings, with an
      optional leading minus, read as their value (an integer option comes back from the
      database as such a string); any other string reads as 0, as PHP 7 compares it with an
      integer. PHP 8 compares an integer with a non-numeric string as strings instead; the plugin
      only ever stores the expiry as an integer, so the difference does not arise here. */
  function AsInt(v: Value): int
  {
    match v
    case Null => 0
    case Bool(b) => if b then 1 else 0
    case Int(i) => i
    case Str(s) =>
      if IsDigits(s) then DigitsValue(s)
      else if |s| > 1 && s[0] == '-' && IsDigits(s[1..]) then 0 - DigitsValue(s[1..]) as int
      else 0
  }

  lemma {:induction false} DigitsAreDigits(n: nat)
    ensures IsDigits(Digits(n))
    ensures Digits(n)[0] != '0' || n == 0
    ensures DigitsValue(Digits(n)) == n
  {
    if n >= 10 {
      DigitsAreDigits(n / 10);
      var s := Digits(n / 10) + [DigitChar(n % 10)];
      assert s[..|s| - 1] == Digits(n / 10);
    }
  }

  /** An integer written to a string and read back as a number is the same integer. */
  lemma IntStringRoundTrip(i: int)
    ensures AsInt(Str(IntToString(i))) == i
    ensures AsInt(Str(ToStr(Int(i)))) == i
  {
    if i < 0 {
      DigitsAreDigits(-i);
      var s := "-" + Digits(-i);
      assert s[1..] == Digits(-i);
      assert !IsDigits(s) by { assert !IsDigit(s[0]); }
    } else {
      DigitsAreDigits(i);
    }
  }
}
