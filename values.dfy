/** The dynamic values that job records hold (what `json.loads` and the
    record fields produce), with Python's truthiness, `dict.get`, `str()` of
    a scalar and `int()` of a decimal text. */
module PyValues {
  import opened Common

  datatype Value =
    | Null
    | Bool(b: bool)
    | Int(i: int)
    | Str(s: string)
    | List(items: seq<Value>)
    | Dict(fields: map<string, Value>)

  /** A record: the dictionary a job is stored and read back as. */
  type Record = map<string, Value>

  /** `bool(v)`: None, False, 0 and empty strings and containers are false. */
  predicate Truthy(v: Value)
  {
    match v
    case Null => false
    case Bool(b) => b
    case Int(i) => i != 0
    case Str(s) => s != ""
    case List(items) => items != []
    case Dict(fields) => |fields| != 0
  }

  /** `type(v).__name__`, as it appears in an `AttributeError` message. */
  function TypeName(v: Value): string
  {
    match v
    case Null => "NoneType"
    case Bool(_) => "bool"
    case Int(_) => "int"
    case Str(_) => "str"
    case List(_) => "list"
    case Dict(_) => "dict"
  }

  /** `d.get(k)`: the value under `k`, or None when there is none. */
  function Get(d: Record, k: string): (v: Value)
    ensures k !in d ==> v == Null
    ensures k in d ==> v == d[k]
  {
    if k in d then d[k] else Null
  }

  /** `x or {}` for a value about to be used as a dictionary. */
  function OrEmptyDict(v: Value): (r: Value)
    ensures Truthy(v) ==> r == v
    ensures !Truthy(v) ==> r == Dict(map[])
  {
    if Truthy(v) then v else Dict(map[])
  }

  /** The message of the `AttributeError` raised by calling `.get` on a
      value that is not a dictionary. */
  function NoGetMessage(v: Value): string
  {
    "'" + TypeName(v) + "' object has no attribute 'get'"
  }

  // ---------------------------------------------------------------------
  // Decimal text: `str(i)` and `int(s)`
  // ---------------------------------------------------------------------

  function DigitChar(d: nat): char
    requires d < 10
  {
    "0123456789"[d]
  }

  predicate IsDigit(c: char)
  {
    '0' <= c <= '9'
  }

  function DigitValue(c: char): nat
    requires IsDigit(c)
  {
    (c - '0') as nat
  }

  /** The decimal digits of `n`, most significant first, without leading zeros. */
  function Digits(n: nat): (s: string)
    ensures |s| > 0 && forall k :: 0 <= k < |s| ==> IsDigit(s[k])
  {
    if n < 10 then [DigitChar(n)] else Digits(n / 10) + [DigitChar(n % 10)]
  }

  /** `str(i)` for an integer. */
  function IntText(i: int): string
  {
    if i < 0 then "-" + Digits(-i) else Digits(i)
  }

  predicate AllDigits(s: string)
  {
    forall k :: 0 <= k < |s| ==> IsDigit(s[k])
  }

  function DigitsValue(s: string): nat
    requires AllDigits(s)
  {
    if s == [] then 0 else 10 * DigitsValue(s[..|s| - 1]) + DigitValue(s[|s| - 1])
  }

  /** `int(s)` for an optional minus sign followed by decimal digits; any
      other text raises, modelled as `None`. */
  function ParseInt(s: string): (r: Option<int>)
    ensures r.Some? ==> |s| > 0
  {
    if |s| > 0 && s[0] == '-' then
      if |s| > 1 && AllDigits(s[1..]) then Some(0 - DigitsValue(s[1..]) as int) else None
    else if |s| > 0 && AllDigits(s) then Some(DigitsValue(s))
    else None
  }

  lemma {:induction false} DigitsRoundTrip(n: nat)
    ensures DigitsValue(Digits(n)) == n
  {
    if n >= 10 {
      var s := Digits(n);
      assert s[..|s| - 1] == Digits(n / 10);
      DigitsRoundTrip(n / 10);
    }
  }

  /** `int(str(i)) == i` for every integer. */
  lemma IntTextRoundTrip(i: int)
    ensures ParseInt(IntText(i)) == Some(i)
    ensures IntText(i) != ""
  {
    if i < 0 {
      NegativeRoundTrip(i);
    } else {
      NaturalRoundTrip(i);
    }
  }

  lemma NaturalRoundTrip(n: nat)
    ensures ParseInt(IntText(n)) == Some(n) && IntText(n) != ""
  {
    var d := Digits(n);
    assert IntText(n) == d;
    assert IsDigit(d[0]);
    assert AllDigits(d);
    DigitsRoundTrip(n);
  }

  lemma NegativeRoundTrip(i: int)
    requires i < 0
    ensures ParseInt(IntText(i)) == Some(i) && IntText(i) != ""
  {
    var n: nat := -i;
    var d := Digits(n);
    var t := "-" + d;
    assert IntText(i) == t;
    assert t[0] == '-' && t[1..] == d && |t| > 1;
    assert AllDigits(d);
    DigitsRoundTrip(n);
    assert ParseInt(t) == Some(0 - n);
  }

  /** `str(v)` of a scalar that is not None. */
  function ScalarText(v: Value): string
    requires v.Bool? || v.Int? || v.Str?
  {
    match v
    case Bool(b) => if b then "True" else "False"
    case Int(i) => IntText(i)
    case Str(s) => s
  }
}
