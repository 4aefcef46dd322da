/** Decoded JSON values as the Python handlers see them after `request.get_json()`
    or `json.loads`, with Python's truthiness and `dict.get` lookups, and the
    decimal rendering that f-strings and `str()` give integers. */
module Json {

  datatype Option<+T> = None | Some(value: T)

  datatype Json =
    | JNull
    | JBool(b: bool)
    | JInt(i: int)
    | JStr(s: string)
    | JList(items: seq<Json>)
    | JObj(fields: map<string, Json>)

  /** Python's truth value of a decoded value: `if not data` rejects exactly the falsy ones. */
  predicate Truthy(j: Json)
    ensures Truthy(j) <==> j !in {JNull, JBool(false), JInt(0), JStr(""), JList([]), JObj(map[])}
  {
    match j
    case JNull => false
    case JBool(b) => b
    case JInt(i) => i != 0
    case JStr(s) => s != ""
    case JList(items) => items != []
    case JObj(fields) => fields != map[]
  }

  /** `d.get(k, default)`. */
  function GetOr(j: Json, k: string, default: Json): (r: Json)
    requires j.JObj?
    ensures k !in j.fields ==> r == default
    ensures k in j.fields ==> r == j.fields[k]
  {
    if k in j.fields then j.fields[k] else default
  }

  /** Values Python can hash, so they can be dictionary keys or `hash()`
      arguments; lists and dicts raise `TypeError`. */
  predicate Hashable(j: Json)
    ensures Hashable(j) <==> j.JNull? || j.JBool? || j.JInt? || j.JStr?
  {
    !j.JList? && !j.JObj?
  }

  /** The integer a value equals as a dictionary key with integer keys:
      `True == 1` and `False == 0` in Python; other values match no int key. */
  function IntKey(j: Json): (r: Option<int>)
    ensures j.JInt? ==> r == Some(j.i)
    ensures j.JBool? ==> r == Some(if j.b then 1 else 0)
    ensures !j.JInt? && !j.JBool? ==> r == None
  {
    match j
    case JInt(i) => Some(i)
    case JBool(b) => Some(if b then 1 else 0)
    case _ => None
  }

  function Digit(d: nat): (c: char)
    requires d < 10
    ensures '0' <= c <= '9'
  {
    ['0', '1', '2', '3', '4', '5', '6', '7', '8', '9'][d]
  }

  /** `str(n)` for a non-negative integer. */
  function DecimalString(n: nat): (r: string)
    ensures |r| >= 1
    ensures forall i :: 0 <= i < |r| ==> '0' <= r[i] <= '9'
  {
    if n < 10 then [Digit(n)] else DecimalString(n / 10) + [Digit(n % 10)]
  }

  lemma DigitInjective(a: nat, b: nat)
    requires a < 10 && b < 10 && Digit(a) == Digit(b)
    ensures a == b
  {
  }

  /** Distinct numbers render differently, so names built from them never collide. */
  lemma {:induction false} DecimalStringInjective(a: nat, b: nat)
    requires DecimalString(a) == DecimalString(b)
    ensures a == b
  {
    var da, db := DecimalString(a), DecimalString(b);
    if a < 10 && b < 10 {
      DigitInjective(a, b);
    } else if a >= 10 && b >= 10 {
      var pa, pb := DecimalString(a / 10), DecimalString(b / 10);
      assert da == pa + [Digit(a % 10)] && db == pb + [Digit(b % 10)];
      assert da[|da| - 1] == Digit(a % 10) && db[|db| - 1] == Digit(b % 10);
      DigitInjective(a % 10, b % 10);
      assert pa == da[..|da| - 1] && pb == db[..|db| - 1];
      DecimalStringInjective(a / 10, b / 10);
    }
    // otherwise one rendering has a single digit and the other at least two
  }

  /** `str(i)` for any integer. */
  function IntString(i: int): (r: string)
    ensures |r| >= 1
    ensures i >= 0 ==> r == DecimalString(i)
    ensures i < 0 ==> r == "-" + DecimalString(-i)
  {
    if i < 0 then "-" + DecimalString(-i) else DecimalString(i)
  }

  /** `str(v)` of a scalar; lists and objects render as a fixed placeholder
      (their Python repr is not part of the model). */
  function Render(j: Json): (r: string)
    ensures j.JStr? ==> r == j.s
    ensures j.JInt? ==> ParseInt(r) == Some(j.i)
    ensures j.JNull? ==> r == "None"
    ensures j.JBool? ==> r == if j.b then "True" else "False"
  {
    match j
    case JNull => "None"
    case JBool(b) => if b then "True" else "False"
    case JInt(i) => IntStringRoundTrip(i); IntString(i)
    case JStr(s) => s
    case JList(_) => "[...]"
    case JObj(_) => "{...}"
  }

  /** The value of a decimal digit. */
  function DigitValue(c: char): (d: nat)
    requires '0' <= c <= '9'
    ensures d < 10 && Digit(d) == c
  {
    (c as int) - ('0' as int)
  }

  /** The value of a non-empty string of decimal digits, most significant first. */
  function DigitsValue(s: string): (n: nat)
    requires |s| >= 1 && forall i :: 0 <= i < |s| ==> '0' <= s[i] <= '9'
  {
    if |s| == 1 then DigitValue(s[0]) else 10 * DigitsValue(s[..|s| - 1]) + DigitValue(s[|s| - 1])
  }

  /** The strings `str` produces for non-negative integers: digits, and no
      leading zero except in "0" itself. */
  predicate CanonicalDigits(s: string)
  {
    |s| >= 1 && (forall i :: 0 <= i < |s| ==> '0' <= s[i] <= '9') && (s[0] == '0' ==> |s| == 1)
  }

  /** `int(s)` on the strings `str` gives for integers; anything else is refused
      (Python also accepts a '+' sign, leading zeros, surrounding blanks and '_'
      separators, which `str` never writes). */
  function ParseInt(s: string): (r: Option<int>)
    ensures r.Some? ==> |s| >= 1 && (r.value < 0 <==> s[0] == '-')
    ensures r.Some? && r.value == 0 ==> s == "0"
  {
    if CanonicalDigits(s) then
      assert s[0] != '0' ==> DigitsValue(s) >= 1 by {
        if s[0] != '0' {
          LeadingDigitPositive(s);
        }
      }
      Some(DigitsValue(s))
    else if |s| >= 2 && s[0] == '-' && s[1] != '0' && CanonicalDigits(s[1..]) then
      assert s[1..][0] == s[1];
      LeadingDigitPositive(s[1..]);
      Some(0 - DigitsValue(s[1..]) as int)
    else None
  }

  lemma {:induction false} LeadingDigitPositive(s: string)
    requires |s| >= 1 && (forall i :: 0 <= i < |s| ==> '0' <= s[i] <= '9') && s[0] != '0'
    ensures DigitsValue(s) >= 1
    ensures |s| >= 2 ==> DigitsValue(s) >= 10
  {
    if |s| > 1 {
      var p := s[..|s| - 1];
      assert p[0] == s[0];
      LeadingDigitPositive(p);
    } else {
      assert Digit(DigitValue(s[0])) == s[0];
    }
  }

  /** Reading back what `str` wrote gives the number again. */
  lemma {:induction false} DecimalStringRoundTrip(n: nat)
    ensures CanonicalDigits(DecimalString(n)) && DigitsValue(DecimalString(n)) == n
  {
    var s := DecimalString(n);
    if n < 10 {
      DigitInjective(DigitValue(Digit(n)), n);
    } else {
      var p := DecimalString(n / 10);
      DecimalStringRoundTrip(n / 10);
      assert s == p + [Digit(n % 10)];
      assert s[..|s| - 1] == p;
      DigitInjective(DigitValue(Digit(n % 10)), n % 10);
      assert s[0] == p[0];
    }
  }

  /** Writing out what was read gives the string again. */
  lemma {:induction false} DigitsRoundTrip(s: string)
    requires CanonicalDigits(s)
    ensures DecimalString(DigitsValue(s)) == s
  {
    if |s| > 1 {
      var p, last := DigitsSplit(s);
      DigitsRoundTrip(p);
      DecimalUnfold(DigitsValue(p), DigitValue(last));
    }
  }

  /** A canonical string of two or more digits is a canonical string of a
      positive number followed by one digit. */
  lemma DigitsSplit(s: string) returns (p: string, last: char)
    requires CanonicalDigits(s) && |s| > 1
    ensures s == p + [last] && CanonicalDigits(p) && '0' <= last <= '9'
    ensures DigitsValue(p) >= 1 && DigitsValue(s) == 10 * DigitsValue(p) + DigitValue(last)
  {
    p, last := s[..|s| - 1], s[|s| - 1];
    assert p[0] == s[0];
    LeadingDigitPositive(p);
  }

  /** Appending a digit to a positive number appends it to its rendering. */
  lemma DecimalUnfold(a: nat, d: nat)
    requires a >= 1 && d < 10
    ensures DecimalString(10 * a + d) == DecimalString(a) + [Digit(d)]
  {
    var n := 10 * a + d;
    assert n / 10 == a && n % 10 == d;
  }

  /** A positive number is written without a leading zero. */
  lemma {:induction false} DecimalStringNoLeadingZero(n: nat)
    requires n >= 1
    ensures DecimalString(n)[0] != '0'
  {
    if n < 10 {
      DigitInjective(DigitValue(Digit(n)), n);
    } else {
      DecimalStringNoLeadingZero(n / 10);
    }
  }

  /** `int(str(i)) == i` for every integer. */
  lemma IntStringRoundTrip(i: int)
    ensures ParseInt(IntString(i)) == Some(i)
  {
    if i >= 0 {
      NonNegativeRoundTrip(i);
    } else {
      NegativeRoundTrip(i);
    }
  }

  lemma NonNegativeRoundTrip(i: nat)
    ensures ParseInt(IntString(i)) == Some(i)
  {
    DecimalStringRoundTrip(i);
    assert IntString(i) == DecimalString(i);
  }

  lemma NegativeRoundTrip(i: int)
    requires i < 0
    ensures ParseInt(IntString(i)) == Some(i)
  {
    var n: nat := -i;
    DecimalStringRoundTrip(n);
    DecimalStringNoLeadingZero(n);
    NegativeParse(DecimalString(n));
  }

  /** A minus sign before canonical digits without a leading zero reads as the
      negated value. */
  lemma NegativeParse(d: string)
    requires CanonicalDigits(d) && d[0] != '0'
    ensures ParseInt("-" + d) == Some(0 - DigitsValue(d) as int)
  {
    var s := "-" + d;
    assert s[0] == '-' && s[1..] == d;
  }

  /** Every string `ParseInt` accepts is what `str` writes for its value, so
      `ParseInt` is one-to-one. */
  lemma ParseIntCanonical(s: string)
    requires ParseInt(s).Some?
    ensures IntString(ParseInt(s).value) == s
  {
    if CanonicalDigits(s) {
      DigitsRoundTrip(s);
    } else {
      var t := s[1..];
      assert s == "-" + t;
      NegativeCanonical(t);
    }
  }

  /** A minus sign before digits without a leading zero is how `str` writes
      the negated value. */
  lemma NegativeCanonical(t: string)
    requires CanonicalDigits(t) && t[0] != '0'
    ensures IntString(0 - DigitsValue(t) as int) == "-" + t
  {
    LeadingDigitPositive(t);
    DigitsRoundTrip(t);
  }
}
