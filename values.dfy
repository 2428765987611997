/**
  The untyped values held by the settings backend (a QVariant inside QSettings),
  the declared types of typed properties, and the conversions the typed layer
  relies on: the type-level `canConvert<T>()`, `value<T>()`, `toInt()`,
  `toBool()`, and the decimal rendering of `QString("%1").arg(int)` and its
  inverse `QString::toInt()`.
*/
module Values {

  datatype Option<+T> = None | Some(value: T)

  /** The simulator option set of a profile, kept opaque: only its serialized form matters here. */
  datatype SimulatorOptions = SimulatorOptions(encoded: seq<bv8>)

  /** A default-constructed option set. */
  const DefaultSimulatorOptions := SimulatorOptions([])

  /** A stored setting; `Invalid` is an entry the backend cannot turn into a value. */
  datatype Value =
    | Str(s: string)
    | Int(i: int)
    | Bool(b: bool)
    | Bytes(bytes: seq<bv8>)
    | StrList(items: seq<string>)
    | SimOpts(opts: SimulatorOptions)
    | Invalid

  /** The C++ types of the typed properties: QString, int/unsigned, bool, QByteArray, QStringList, SimulatorOptions. */
  datatype Ty = TStr | TInt | TBool | TBytes | TStrList | TSimOpts

  predicate HasType(v: Value, t: Ty)
  {
    match v
    case Str(_) => t == TStr
    case Int(_) => t == TInt
    case Bool(_) => t == TBool
    case Bytes(_) => t == TBytes
    case StrList(_) => t == TStrList
    case SimOpts(_) => t == TSimOpts
    case Invalid => false
  }

  const INT32_MIN := -0x8000_0000
  const INT32_MAX := 0x7fff_ffff

  predicate InInt32(n: int)
  {
    INT32_MIN <= n <= INT32_MAX
  }

  // ---------------------------------------------------------------------------
  // Decimal text

  predicate IsDigit(c: char)
  {
    '0' <= c <= '9'
  }

  predicate AllDigits(s: string)
  {
    forall i :: 0 <= i < |s| ==> IsDigit(s[i])
  }

  function DigitChar(d: nat): (c: char)
    requires d < 10
    ensures IsDigit(c)
  {
    (48 + d) as char
  }

  function DigitValue(c: char): (d: nat)
    requires IsDigit(c)
    ensures d < 10
  {
    (c as int) - 48
  }

  /** Decimal digits of `n`, most significant first, no leading zeros. */
  function NatToString(n: nat): (s: string)
    ensures |s| >= 1 && AllDigits(s)
    ensures n >= 10 ==> s[0] != '0'
  {
    if n < 10 then [DigitChar(n)] else NatToString(n / 10) + [DigitChar(n % 10)]
  }

  /** `QString("%1").arg(n)`: decimal, with a leading '-' for negative numbers. */
  function IntToString(n: int): (s: string)
    ensures |s| >= 1 && '/' !in s
    ensures forall i :: 0 <= i < |s| ==> IsDigit(s[i]) || (i == 0 && s[i] == '-')
  {
    if n < 0 then "-" + NatToString(-n) else NatToString(n)
  }

  /** The value of a digit string, read most significant digit first. */
  function ParseDigits(s: string): nat
    requires AllDigits(s)
  {
    if s == [] then 0 else ParseDigits(s[..|s| - 1]) * 10 + DigitValue(s[|s| - 1])
  }

  /** An optionally signed decimal integer of unbounded width, or None when `s` is not one. */
  function ParseDecimal(s: string): Option<int>
  {
    if |s| > 0 && (s[0] == '-' || s[0] == '+') then
      if |s| > 1 && AllDigits(s[1..]) then
        var magnitude: int := ParseDigits(s[1..]);
        Some(if s[0] == '-' then -magnitude else magnitude)
      else None
    else if |s| > 0 && AllDigits(s) then Some(ParseDigits(s))
    else None
  }

  /** `QString::toInt()`: the 32-bit value of a decimal string, 0 when it does not parse or does not fit. */
  function ParseInt(s: string): (n: int)
    ensures InInt32(n)
    ensures ParseDecimal(s).None? ==> n == 0
  {
    match ParseDecimal(s)
    case Some(v) => if InInt32(v) then v else 0
    case None => 0
  }

  lemma {:induction false} NatToStringRoundTrip(n: nat)
    ensures ParseDigits(NatToString(n)) == n
  {
    if n >= 10 {
      var s := NatToString(n);
      var prefix := NatToString(n / 10);
      assert s == prefix + [DigitChar(n % 10)];
      assert s[..|s| - 1] == prefix;
      NatToStringRoundTrip(n / 10);
    }
  }

  /** Reading back the decimal text of any integer gives the integer. */
  lemma {:induction false} IntToStringRoundTrip(n: int)
    ensures ParseDecimal(IntToString(n)) == Some(n)
  {
    if n < 0 {
      var s := IntToString(n);
      assert s[1..] == NatToString(-n);
      NatToStringRoundTrip(-n);
    } else {
      NatToStringRoundTrip(n);
    }
  }

  /** `toInt()` undoes `arg()` for every 32-bit int. */
  lemma ParseIntOfIntToString(n: int)
    requires InInt32(n)
    ensures ParseInt(IntToString(n)) == n
  {
    IntToStringRoundTrip(n);
  }

  /** Distinct integers have distinct decimal text. */
  lemma IntToStringInjective(m: int, n: int)
    requires IntToString(m) == IntToString(n)
    ensures m == n
  {
    IntToStringRoundTrip(m);
    IntToStringRoundTrip(n);
  }

  // ---------------------------------------------------------------------------
  // QVariant conversions

  function LowerChar(c: char): char
  {
    if 'A' <= c <= 'Z' then (c as int + 32) as char else c
  }

  function Lower(s: string): (r: string)
    ensures |r| == |s|
  {
    seq(|s|, i requires 0 <= i < |s| => LowerChar(s[i]))
  }

  /** `QVariant::toString()` for the values that have a string form. */
  function ToQString(v: Value): string
  {
    match v
    case Str(s) => s
    case Int(i) => IntToString(i)
    case Bool(b) => if b then "true" else "false"
    case StrList(items) => if |items| == 1 then items[0] else ""
    case _ => ""
  }

  /** `QVariant::toInt()`: 0 for everything that is not a number, a bool or a numeric string. */
  function ToInt(v: Value): int
  {
    match v
    case Int(i) => i
    case Str(s) => ParseInt(s)
    case Bool(b) => if b then 1 else 0
    case _ => 0
  }

  /** `QVariant::toBool()`: a string is false when empty, "0" or "false" in any letter case. */
  function ToBool(v: Value): bool
  {
    match v
    case Bool(b) => b
    case Int(i) => i != 0
    case Str(s) => !(s == "" || s == "0" || Lower(s) == "false")
    case _ => false
  }

  /**
    `QVariant::canConvert<T>()` for the conversions the model carries,
    decided by the stored type alone, not by the stored text. The byte-array
    conversions (to and from a string, to int and bool) are not carried: a
    byte array converts only to a byte array here.
  */
  predicate CanConvert(v: Value, t: Ty)
  {
    match t
    case TStr => v.Str? || v.Int? || v.Bool? || (v.StrList? && |v.items| == 1)
    case TInt => v.Str? || v.Int? || v.Bool?
    case TBool => v.Str? || v.Int? || v.Bool?
    case TBytes => v.Bytes?
    case TStrList => v.StrList? || v.Str?
    case TSimOpts => v.SimOpts?
  }

  /** `QVariant::value<T>()` for a value that can be converted. */
  function ConvertTo(v: Value, t: Ty): (r: Value)
    requires CanConvert(v, t)
    ensures HasType(r, t)
    ensures HasType(v, t) ==> r == v
  {
    match t
    case TStr => Str(ToQString(v))
    case TInt => Int(ToInt(v))
    case TBool => Bool(ToBool(v))
    case TBytes => v
    case TStrList => if v.Str? then StrList([v.s]) else v
    case TSimOpts => v
  }

  /**
    The value a property of type `t` holds before its first `_init()`: the
    member is declared without an initialiser and the owning objects have
    static storage, so numbers are zero, `bool` is false, the Qt containers
    are empty and `SimulatorOptions` is default-constructed.
  */
  function ZeroOf(t: Ty): (v: Value)
    ensures HasType(v, t)
  {
    match t
    case TStr => Str("")
    case TInt => Int(0)
    case TBool => Bool(false)
    case TBytes => Bytes([])
    case TStrList => StrList([])
    case TSimOpts => SimOpts(DefaultSimulatorOptions)
  }
}
