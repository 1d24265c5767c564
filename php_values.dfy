/** PHP values as the two controllers see them: request parameters after JSON
    decoding, and documents read from the document store. A PHP array whose
    keys are 0..n-1 in insertion order is a `List`; any other array is an
    `Obj` keyed by strings. PHP normalises a canonical decimal string key
    ("0", "17", but not "07") to the integer key it spells, so `Get` on a
    `List` accepts exactly those strings. */
module PhpValues {

  datatype Option<T> = None | Some(value: T)

  datatype Value =
    | Null
    | Bool(b: bool)
    | Num(n: int)
    | Str(s: string)
    | List(items: seq<Value>)
    | Obj(fields: map<string, Value>)

  predicate IsArray(v: Value) {
    v.List? || v.Obj?
  }

  /** PHP's conversion to boolean, used by `if ($x)`, `!$x` and `(boolean)`. */
  predicate Truthy(v: Value) {
    match v
    case Null => false
    case Bool(b) => b
    case Num(n) => n != 0
    case Str(s) => s != "" && s != "0"
    case List(items) => |items| > 0
    case Obj(fields) => |fields| > 0
  }

  /** `count($a)` on an array. */
  function Count(v: Value): nat
    requires IsArray(v)
  {
    if v.List? then |v.items| else |v.fields|
  }

  // ---------------------------------------------------------------------------
  // Decimal digits

  predicate IsDigit(c: char) {
    '0' <= c <= '9'
  }

  predicate AllDigits(s: string) {
    forall i :: 0 <= i < |s| ==> IsDigit(s[i])
  }

  function DigitChar(d: nat): (c: char)
    requires d < 10
    ensures IsDigit(c) && (c as int) - ('0' as int) == d
  {
    ('0' as int + d) as char
  }

  /** Value of a string of decimal digits, most significant digit first. */
  function DigitsValue(s: string): nat
    requires AllDigits(s)
  {
    if s == [] then 0
    else DigitsValue(s[..|s| - 1]) * 10 + ((s[|s| - 1] as int) - ('0' as int))
  }

  /** The decimal spelling of a natural number, without leading zeros. */
  function Decimal(n: nat): (s: string)
    ensures |s| > 0 && AllDigits(s)
  {
    if n < 10 then [DigitChar(n)] else Decimal(n / 10) + [DigitChar(n % 10)]
  }

  /** A key PHP turns into a non-negative integer key. */
  predicate IsCanonicalIndex(s: string) {
    |s| > 0 && AllDigits(s) && (s[0] != '0' || |s| == 1)
  }

  lemma {:induction false} DecimalRoundTrip(n: nat)
    ensures DigitsValue(Decimal(n)) == n
    ensures IsCanonicalIndex(Decimal(n))
  {
    if n >= 10 {
      DecimalRoundTrip(n / 10);
      var s := Decimal(n);
      assert s[..|s| - 1] == Decimal(n / 10);
    }
  }

  lemma {:induction false} LeadingDigitBound(s: string)
    requires |s| > 0 && AllDigits(s)
    ensures DigitsValue(s) >= (s[0] as int) - ('0' as int)
  {
    if |s| > 1 {
      LeadingDigitBound(s[..|s| - 1]);
    }
  }

  lemma {:induction false} CanonicalRoundTrip(s: string)
    requires IsCanonicalIndex(s)
    ensures Decimal(DigitsValue(s)) == s
  {
    if |s| > 1 {
      var init := s[..|s| - 1];
      assert IsCanonicalIndex(init);
      CanonicalRoundTrip(init);
      LeadingDigitBound(init);
      var n := DigitsValue(s);
      assert n / 10 == DigitsValue(init) && n % 10 == (s[|s| - 1] as int) - ('0' as int);
      assert s == init + [s[|s| - 1]];
    }
  }

  /** Canonical index keys and natural numbers are in one-to-one correspondence. */
  lemma DecimalInjective(i: nat, j: nat)
    ensures Decimal(i) == Decimal(j) ==> i == j
  {
    DecimalRoundTrip(i);
    DecimalRoundTrip(j);
  }

  lemma DecimalInjectiveAll()
    ensures forall i: nat, j: nat :: Decimal(i) == Decimal(j) ==> i == j
  {
    forall i: nat, j: nat ensures Decimal(i) == Decimal(j) ==> i == j {
      DecimalInjective(i, j);
    }
  }

  /** The decimal spelling of an integer, with a leading '-' when negative. */
  function SignedDecimal(n: int): string {
    if n < 0 then "-" + Decimal(-n) else Decimal(n)
  }

  // ---------------------------------------------------------------------------
  // Numeric strings

  /** Decimal integer syntax: an optional sign followed by at least one digit.
      This is the part of `is_numeric` the model keeps. */
  predicate IsIntegerString(s: string) {
    if |s| > 0 && (s[0] == '-' || s[0] == '+') then |s| > 1 && AllDigits(s[1..])
    else |s| > 0 && AllDigits(s)
  }

  /** `$s + 0` for an integer string. */
  function IntegerValue(s: string): int
    requires IsIntegerString(s)
  {
    if s[0] == '-' then -(DigitsValue(s[1..]) as int)
    else if s[0] == '+' then DigitsValue(s[1..])
    else DigitsValue(s)
  }

  /** Length of the longest prefix of `s` made of digits. */
  function DigitPrefixLength(s: string): (k: nat)
    ensures k <= |s| && AllDigits(s[..k])
    ensures k < |s| ==> !IsDigit(s[k])
  {
    if s == [] || !IsDigit(s[0]) then 0
    else
      var k := 1 + DigitPrefixLength(s[1..]);
      assert s[..k] == [s[0]] + s[1..][..k - 1];
      k
  }

  /** The white-space characters `intval` skips before the number. */
  predicate IsSpace(c: char) {
    c == ' ' || c == '\t' || c == '\n' || c == '\r' || c as int == 11 || c as int == 12
  }

  /** `s` without its leading white space. */
  function SkipSpace(s: string): (t: string)
    ensures |t| <= |s| && t == s[|s| - |t|..]
    ensures |t| > 0 ==> !IsSpace(t[0])
  {
    if |s| > 0 && IsSpace(s[0]) then SkipSpace(s[1..]) else s
  }

  /** `intval($s)` on a string, reading only leading white space, an optional
      sign and the longest run of digits after it; a string that does not
      start that way gives 0. PHP 7.1 and later also read the fraction and
      exponent of a numeric string ("1e3" gives 1000), which is not modelled. */
  function StringIntVal(s: string): int {
    SignedPrefixValue(SkipSpace(s))
  }

  function SignedPrefixValue(s: string): int {
    if |s| > 0 && (s[0] == '-' || s[0] == '+') then
      var rest := s[1..];
      var d: int := DigitsValue(rest[..DigitPrefixLength(rest)]);
      if s[0] == '-' then -d else d
    else DigitsValue(s[..DigitPrefixLength(s)])
  }

  /** On an integer string, `intval` and `$s + 0` agree. */
  lemma StringIntValOfIntegerString(s: string)
    requires IsIntegerString(s)
    ensures StringIntVal(s) == IntegerValue(s)
  {
    assert SkipSpace(s) == s;
    if s[0] == '-' || s[0] == '+' {
      AllDigitsPrefix(s[1..]);
      assert s[1..][..|s[1..]|] == s[1..];
    } else {
      AllDigitsPrefix(s);
      assert s[..|s|] == s;
    }
  }

  /** White space before the number makes no difference. */
  lemma {:induction false} StringIntValSkipsSpace(p: string, s: string)
    requires forall i :: 0 <= i < |p| ==> IsSpace(p[i])
    ensures StringIntVal(p + s) == StringIntVal(s)
  {
    if p == [] {
      assert p + s == s;
    } else {
      assert (p + s)[0] == p[0] && (p + s)[1..] == p[1..] + s;
      assert SkipSpace(p + s) == SkipSpace(p[1..] + s);
      StringIntValSkipsSpace(p[1..], s);
    }
  }

  lemma {:induction false} AllDigitsPrefix(s: string)
    requires AllDigits(s)
    ensures DigitPrefixLength(s) == |s|
  {
    if s != [] {
      AllDigitsPrefix(s[1..]);
    }
  }

  /** `intval($v)`. */
  function IntVal(v: Value): int {
    match v
    case Null => 0
    case Bool(b) => if b then 1 else 0
    case Num(n) => n
    case Str(s) => StringIntVal(s)
    case List(items) => if |items| == 0 then 0 else 1
    case Obj(fields) => if |fields| == 0 then 0 else 1
  }

  /** PHP's conversion to string, as done by string functions and `.`. */
  function ToStr(v: Value): string {
    match v
    case Null => ""
    case Bool(b) => if b then "1" else ""
    case Num(n) => SignedDecimal(n)
    case Str(s) => s
    case List(_) => "Array"
    case Obj(_) => "Array"
  }

  // ---------------------------------------------------------------------------
  // Reading, writing and removing array elements

  /** `$v[$k]`, null when the element is absent or `$v` is not an array. */
  function Get(v: Value, k: string): Value {
    match v
    case Obj(fields) => if k in fields then fields[k] else Null
    case List(items) =>
      if IsCanonicalIndex(k) && DigitsValue(k) < |items| then items[DigitsValue(k)] else Null
    case _ => Null
  }

  /** `isset($v[$k])`. */
  predicate Isset(v: Value, k: string) {
    Get(v, k) != Null
  }

  /** `in_array($x, $a)`. */
  predicate InArray(x: Value, a: Value) {
    (a.List? && x in a.items) || (a.Obj? && x in a.fields.Values)
  }

  /** A list re-keyed by the decimal spelling of each index: the same PHP
      array, once a string key is added to it. */
  function ListAsMap(items: seq<Value>): (m: map<string, Value>)
    ensures forall k :: k in m <==> IsCanonicalIndex(k) && DigitsValue(k) < |items|
    ensures forall k :: k in m ==> IsCanonicalIndex(k) && DigitsValue(k) < |items| && m[k] == items[DigitsValue(k)]
  {
    DecimalInjectiveAll();
    var m := map i | 0 <= i < |items| :: Decimal(i) := items[i];
    forall k | IsCanonicalIndex(k) && DigitsValue(k) < |items|
      ensures k in m
    {
      CanonicalRoundTrip(k);
    }
    forall i | 0 <= i < |items|
      ensures IsCanonicalIndex(Decimal(i)) && DigitsValue(Decimal(i)) == i
    {
      DecimalRoundTrip(i);
    }
    m
  }

  /** Writes into an array or autovivifies null/false into one. */
  predicate Writable(v: Value) {
    v.Obj? || v.List? || v == Null || v == Bool(false)
  }

  /** `$v[$k] = $x` on an array, or on null or false, which PHP turns into
      an array first. PHP rewrites the first character of a non-empty string
      (version 7) or throws (version 8), and refuses `true` and numbers; none
      of these is modelled, and such a value is returned unchanged. */
  function SetKey(v: Value, k: string, x: Value): (r: Value)
    ensures Writable(v) ==> r.Obj? && Get(r, k) == x
    ensures Writable(v) ==> forall k' :: k' != k ==> Get(r, k') == Get(v, k')
    ensures Writable(v) ==> r.fields.Keys == (if v.Obj? then v.fields.Keys
                                               else if v.List? then ListAsMap(v.items).Keys
                                               else {}) + {k}
    ensures !Writable(v) ==> r == v
  {
    match v
    case Obj(fields) => Obj(fields[k := x])
    case List(items) => Obj(ListAsMap(items)[k := x])
    case Null => Obj(map[k := x])
    case Bool(false) => Obj(map[k := x])
    case _ => v
  }

  /** `unset($v[$k])`. Leaves a scalar unchanged. */
  function Unset(v: Value, k: string): (r: Value)
    ensures IsArray(v) ==> r.Obj? && !Isset(r, k) && k !in r.fields
    ensures IsArray(v) ==> forall k' :: k' != k ==> Get(r, k') == Get(v, k')
    ensures !IsArray(v) ==> r == v
  {
    match v
    case Obj(fields) => Obj(fields - {k})
    case List(items) => Obj(ListAsMap(items) - {k})
    case _ => v
  }
}
