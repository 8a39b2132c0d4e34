/**
 * The closed value type that stands for the dynamic values (QVariant) a
 * WAMP message array is made of, the message codes of the WAMP message
 * catalog, and the conversions the client applies when it reads a field
 * of a received message.
 */
module Values {

  /** An octet. */
  type Byte = x: int | 0 <= x < 256
  type Bytes = seq<Byte>

  /** Bitwise exclusive or of two octets. */
  function Xor(a: Byte, b: Byte): Byte {
    ((a as bv8) ^ (b as bv8)) as int
  }

  const U64_LIMIT: int := 0x1_0000_0000_0000_0000
  const I32_LIMIT: int := 0x1_0000_0000
  /** 2^63: a signed 64-bit integer (qlonglong) lies in [-I64_LIMIT, I64_LIMIT). */
  const I64_LIMIT: int := 0x8000_0000_0000_0000

  /** An unsigned 64-bit integer (qulonglong): request ids and router-assigned ids. */
  type U64 = x: int | 0 <= x < U64_LIMIT

  /** A C `int`: a signed 32-bit integer. */
  type I32 = x: int | -I32_LIMIT / 2 <= x < I32_LIMIT / 2

  datatype Option<+T> = None | Some(value: T)

  /** A dynamic value; `Invalid` is the value of a default-constructed QVariant. */
  datatype Value =
    | Invalid
    | Null
    | Bool(b: bool)
    | Int(i: int)
    | Real(r: real)
    | Str(s: string)
    | ByteArray(data: Bytes)
    | List(items: seq<Value>)
    | Dict(entries: map<string, Value>)

  /** A message as it travels: an ordered array whose first element is its code. */
  type Message = seq<Value>

  // Message codes of the WAMP message catalog
  const HELLO := 1
  const WELCOME := 2
  const ABORT := 3
  const CHALLENGE := 4
  const AUTHENTICATE := 5
  const GOODBYE := 6
  const ERROR := 8
  const PUBLISH := 16
  const PUBLISHED := 17
  const SUBSCRIBE := 32
  const SUBSCRIBED := 33
  const UNSUBSCRIBE := 34
  const UNSUBSCRIBED := 35
  const EVENT := 36
  const CALL := 48
  const RESULT := 50
  const REGISTER := 64
  const REGISTERED := 65
  const UNREGISTER := 66
  const UNREGISTERED := 67
  const INVOCATION := 68
  const YIELD := 70

  /** The empty map `QVariantMap()`. */
  const EMPTY_DICT: Value := Dict(map[])

  /** The C++ cast to `int`: the low 32 bits, read as a two's complement number. */
  function Wrap32(x: int): (n: I32)
    ensures -I32_LIMIT / 2 <= x < I32_LIMIT / 2 ==> n == x
  {
    var w := x % I32_LIMIT;
    if w < I32_LIMIT / 2 then w else w - I32_LIMIT
  }

  /** The cast keeps the low 32 bits: the result agrees with `x` modulo 2^32. */
  lemma Wrap32Congruent(x: int)
    ensures Wrap32(x) % I32_LIMIT == x % I32_LIMIT
  {
  }

  /** The C++ cast to `qulonglong`: the value modulo 2^64. */
  function Wrap64(x: int): (n: U64)
    ensures 0 <= x < U64_LIMIT ==> n == x
    ensures -U64_LIMIT <= x < 0 ==> n == x + U64_LIMIT
  {
    x % U64_LIMIT
  }

  /** qRound64: the nearest integer, a half rounded towards positive infinity. */
  function Round(r: real): (n: int)
    ensures r - 0.5 < n as real <= r + 0.5
  {
    (r + 0.5).Floor
  }

  /** The white space C-locale number parsing skips: space, tab, and line feed to carriage return. */
  predicate IsSpace(c: char) {
    c == ' ' || '\t' <= c <= '\r'
  }

  predicate IsDigit(c: char) {
    '0' <= c <= '9'
  }

  /** A non-empty run of ASCII decimal digits. */
  predicate AllDigits(s: string) {
    |s| > 0 && forall k | 0 <= k < |s| :: IsDigit(s[k])
  }

  function Digit(d: int): char
    requires 0 <= d < 10
  {
    ('0' as int + d) as char
  }

  /** The decimal digits of `n`, most significant first. */
  function NatDecimal(n: nat): (s: string)
    ensures AllDigits(s)
    ensures s[0] == '0' ==> n == 0
  {
    if n < 10 then [Digit(n)] else NatDecimal(n / 10) + [Digit(n % 10)]
  }

  /** QString::number on an integer: the digits, after a minus sign for a negative number. */
  function Decimal(n: int): string {
    if n < 0 then "-" + NatDecimal(-n) else NatDecimal(n)
  }

  /** The number a run of decimal digits denotes. */
  function DigitsValue(s: string): nat
    requires forall k | 0 <= k < |s| :: IsDigit(s[k])
  {
    if s == [] then 0
    else
      assert IsDigit(s[|s| - 1]);
      DigitsValue(s[..|s| - 1]) * 10 + (s[|s| - 1] as int - '0' as int)
  }

  /** Reading back the digits of `n` gives `n`. */
  lemma {:induction false} DigitsValueOfDecimal(n: nat)
    ensures DigitsValue(NatDecimal(n)) == n
  {
    if n >= 10 {
      DigitsValueOfDecimal(n / 10);
      var s := NatDecimal(n);
      assert s[..|s| - 1] == NatDecimal(n / 10);
    }
  }

  /** `s` without its leading white space. */
  function TrimStart(s: string): (t: string)
    ensures |t| <= |s| && t == s[|s| - |t|..]
    ensures forall k | 0 <= k < |s| - |t| :: IsSpace(s[k])
    ensures t == [] || !IsSpace(t[0])
  {
    if s != [] && IsSpace(s[0]) then TrimStart(s[1..]) else s
  }

  /** `s` without its trailing white space. */
  function TrimEnd(s: string): (t: string)
    ensures |t| <= |s| && t == s[..|t|]
    ensures forall k | |t| <= k < |s| :: IsSpace(s[k])
    ensures t == [] || !IsSpace(t[|t| - 1])
  {
    if s != [] && IsSpace(s[|s| - 1]) then TrimEnd(s[..|s| - 1]) else s
  }

  /** A decimal numeral read: whether it had a minus sign, and the value of its digits. */
  datatype Numeral = Numeral(negative: bool, magnitude: nat)

  /**
   * Base-10 number parsing in the C locale: white space around an
   * optional `+` or `-` and one or more ASCII digits; anything else fails.
   */
  function ParseNumeral(s: string): Option<Numeral> {
    var t := TrimEnd(TrimStart(s));
    if |t| > 0 && (t[0] == '+' || t[0] == '-') then
      if AllDigits(t[1..]) then Some(Numeral(t[0] == '-', DigitsValue(t[1..]))) else None
    else if AllDigits(t) then Some(Numeral(false, DigitsValue(t)))
    else None
  }

  /** Text that neither starts nor ends with white space is left as it is by trimming. */
  lemma TrimUnspaced(s: string)
    requires s != [] && !IsSpace(s[0]) && !IsSpace(s[|s| - 1])
    ensures TrimEnd(TrimStart(s)) == s
  {
  }

  /** The rendering of every integer parses back to its sign and magnitude. */
  lemma ParseNumeralOfDecimal(n: int)
    ensures ParseNumeral(Decimal(n)) == Some(Numeral(n < 0, if n < 0 then -n else n))
  {
    var m: nat := if n < 0 then -n else n;
    var digits := NatDecimal(m);
    DigitsValueOfDecimal(m);
    var s := Decimal(n);
    if n < 0 {
      assert s == "-" + digits;
      assert s[1..] == digits && s[|s| - 1] == digits[|digits| - 1];
    } else {
      assert s == digits;
    }
    TrimUnspaced(s);
  }

  /** QString::toLongLong: the numeral's value when it fits a signed 64-bit integer, else 0. */
  function StringToLongLong(s: string): (n: int)
    ensures -I64_LIMIT <= n < I64_LIMIT
    ensures ParseNumeral(s).None? ==> n == 0
  {
    match ParseNumeral(s)
    case Some(num) =>
      var x: int := if num.negative then -(num.magnitude as int) else num.magnitude;
      if -I64_LIMIT <= x < I64_LIMIT then x else 0
    case None => 0
  }

  /** QString::toULongLong: the numeral's value when it has no minus sign and fits 64 bits, else 0. */
  function StringToULongLong(s: string): (n: U64)
    ensures ParseNumeral(s).None? ==> n == 0
  {
    match ParseNumeral(s)
    case Some(num) => if !num.negative && num.magnitude < U64_LIMIT then num.magnitude else 0
    case None => 0
  }

  /** A signed 64-bit integer survives the trip through its decimal text. */
  lemma StringToLongLongOfDecimal(n: int)
    requires -I64_LIMIT <= n < I64_LIMIT
    ensures StringToLongLong(Decimal(n)) == n
  {
    ParseNumeralOfDecimal(n);
  }

  /** An unsigned 64-bit integer survives the trip through its decimal text; a minus sign gives 0. */
  lemma StringToULongLongOfDecimal(n: int)
    requires -U64_LIMIT < n < U64_LIMIT
    ensures StringToULongLong(Decimal(n)) == if n < 0 then 0 else n
  {
    ParseNumeralOfDecimal(n);
  }

  /** QString::fromLatin1: one character per byte. */
  function FromLatin1(b: Bytes): (s: string)
    ensures |s| == |b| && forall k | 0 <= k < |b| :: s[k] as int == b[k]
  {
    seq(|b|, k requires 0 <= k < |b| => b[k] as char)
  }

  /**
   * QVariant::toULongLong: an integer is taken modulo 2^64 (so -1 gives the
   * largest value), a double is rounded with qRound64 first, a string or
   * byte array is parsed as an unsigned decimal numeral, a boolean gives 0
   * or 1, and everything else 0.
   */
  function ToULongLong(v: Value): (n: U64)
    ensures v.Int? && 0 <= v.i < U64_LIMIT ==> n == v.i
    ensures v.Int? && -U64_LIMIT <= v.i < 0 ==> n == v.i + U64_LIMIT
    ensures v.Real? && 0.0 <= v.r < I64_LIMIT as real - 0.5 ==> v.r - 0.5 < n as real <= v.r + 0.5
    ensures v.Bool? ==> n == if v.b then 1 else 0
    ensures v.Invalid? || v.Null? || v.List? || v.Dict? ==> n == 0
  {
    match v
    case Int(i) => Wrap64(i)
    case Real(r) => Wrap64(Round(r))
    case Str(s) => StringToULongLong(s)
    case ByteArray(data) => StringToULongLong(FromLatin1(data))
    case Bool(b) => if b then 1 else 0
    case _ => 0
  }

  /**
   * QVariant::toInt: the 64-bit conversion (an integer as it is, a double
   * rounded with qRound64, a string or byte array parsed as a signed
   * decimal numeral) cut to its low 32 bits and read as a signed int; a
   * boolean gives 0 or 1, everything else 0.
   */
  function ToInt(v: Value): (n: int)
    ensures -I32_LIMIT / 2 <= n < I32_LIMIT / 2
    ensures v.Int? && -I32_LIMIT / 2 <= v.i < I32_LIMIT / 2 ==> n == v.i
    ensures v.Real? && -(I32_LIMIT / 2) as real <= v.r < (I32_LIMIT / 2) as real - 0.5 ==> v.r - 0.5 < n as real <= v.r + 0.5
    ensures v.Bool? ==> n == if v.b then 1 else 0
    ensures v.Invalid? || v.Null? || v.List? || v.Dict? ==> n == 0
  {
    match v
    case Int(i) => Wrap32(i)
    case Real(r) => Wrap32(Round(r))
    case Str(s) => Wrap32(StringToLongLong(s))
    case ByteArray(data) => Wrap32(StringToLongLong(FromLatin1(data)))
    case Bool(b) => if b then 1 else 0
    case _ => 0
  }

  /** QVariantMap::toMap: a map, or the empty map for any other value. */
  function ToMap(v: Value): map<string, Value> {
    if v.Dict? then v.entries else map[]
  }

  /** QVariant::toList: a list, or the empty list for any other value. */
  function ToList(v: Value): seq<Value> {
    if v.List? then v.items else []
  }

  /** The decimal text of an integer, which parses back to the integer's sign and magnitude. */
  function IntText(i: int): (s: string)
    ensures ParseNumeral(s) == Some(Numeral(i < 0, if i < 0 then -i else i))
  {
    ParseNumeralOfDecimal(i);
    Decimal(i)
  }

  /**
   * QVariant::toString: a string as it is, an integer in decimal, a boolean
   * as "true" or "false", and a byte array of ASCII characters other than
   * NUL as those characters; everything else reads as the empty string.
   */
  function ToStr(v: Value): (s: string)
    ensures v.Str? ==> s == v.s
    ensures v.Bool? ==> s == if v.b then "true" else "false"
    ensures v.Int? ==> ParseNumeral(s) == Some(Numeral(v.i < 0, if v.i < 0 then -v.i else v.i))
    ensures v.Invalid? || v.Null? || v.Real? || v.List? || v.Dict? ==> s == ""
  {
    match v
    case Str(s) => s
    case Int(i) => IntText(i)
    case Bool(b) => if b then "true" else "false"
    case ByteArray(data) => if forall k | 0 <= k < |data| :: 0 < data[k] < 128 then FromLatin1(data) else ""
    case _ => ""
  }

  /** An integer sent as its `toString` text converts with `toInt` as the integer does. */
  lemma IntTextToInt(i: int)
    requires -I64_LIMIT <= i < I64_LIMIT
    ensures ToInt(Str(ToStr(Int(i)))) == ToInt(Int(i))
  {
    var text := Decimal(i);
    assert ToStr(Int(i)) == text;
    StringToLongLongOfDecimal(i);
    assert ToInt(Str(text)) == Wrap32(StringToLongLong(text)) == Wrap32(i);
  }

  /** An id sent as its `toString` text reads back with `toULongLong` as the id itself. */
  lemma IdTextToULongLong(id: U64)
    ensures ToULongLong(Str(ToStr(Int(id)))) == id
  {
    var text := Decimal(id);
    assert ToStr(Int(id)) == text;
    StringToULongLongOfDecimal(id);
    assert ToULongLong(Str(text)) == StringToULongLong(text);
  }

  /** `m[key]` on a non-const QVariantMap copy: the stored value, or an invalid value. */
  function Lookup(m: map<string, Value>, key: string): Value {
    if key in m then m[key] else Invalid
  }

  /** The byte `toLatin1` writes for a code unit it cannot represent. */
  const QUESTION_MARK: Byte := 63

  /** The number of UTF-16 code units of `s`: two for a character beyond U+FFFF, one otherwise. */
  function Utf16Length(s: string): nat {
    if s == [] then 0 else (if s[0] as int < 0x1_0000 then 1 else 2) + Utf16Length(s[1..])
  }

  /** The Latin-1 bytes of one character: its code below 256, else '?' per UTF-16 code unit. */
  function Latin1Units(c: char): Bytes {
    if c as int < 256 then [c as int]
    else if c as int < 0x1_0000 then [QUESTION_MARK]
    else [QUESTION_MARK, QUESTION_MARK]
  }

  /**
   * QString::toLatin1: one byte per UTF-16 code unit. On a string of
   * characters up to U+FFFF that is one byte per character, the code of a
   * character below 256 and '?' for any other.
   */
  function Latin1(s: string): (b: Bytes)
    ensures |b| == Utf16Length(s)
    ensures (forall k | 0 <= k < |s| :: s[k] as int < 0x1_0000) ==>
              |b| == |s| && forall k | 0 <= k < |s| :: b[k] == if s[k] as int < 256 then s[k] as int else QUESTION_MARK
  {
    if s == [] then [] else Latin1Units(s[0]) + Latin1(s[1..])
  }

  /** toLatin1 of a concatenation is the concatenation of the two encodings. */
  lemma {:induction false} Latin1Append(s: string, t: string)
    ensures Latin1(s + t) == Latin1(s) + Latin1(t)
  {
    if s != [] {
      assert (s + t)[0] == s[0] && (s + t)[1..] == s[1..] + t;
      Latin1Append(s[1..], t);
      calc {
        Latin1(s + t);
        Latin1Units(s[0]) + Latin1(s[1..] + t);
        Latin1Units(s[0]) + (Latin1(s[1..]) + Latin1(t));
        (Latin1Units(s[0]) + Latin1(s[1..])) + Latin1(t);
        Latin1(s) + Latin1(t);
      }
    } else {
      assert s + t == t;
    }
  }

  /** fromLatin1 and toLatin1 are inverse: on bytes, and on strings of characters below 256. */
  lemma Latin1RoundTrip(b: Bytes, s: string)
    ensures Latin1(FromLatin1(b)) == b
    ensures (forall k | 0 <= k < |s| :: s[k] as int < 256) ==> FromLatin1(Latin1(s)) == s
  {
  }

  /** The code of a message: its first element read with `toInt()`. */
  function Code(arr: Message): int
    requires |arr| > 0
  {
    ToInt(arr[0])
  }
}
