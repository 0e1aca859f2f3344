/** JavaScript values as the datastore layer sees them: truthiness, `typeof`,
    `for (k in v)` enumeration, property access, `toString()`, `String(v)`,
    `parseInt(v, 10)` and the comparison `v > 0`. */
module Js {

  datatype Option<+T> = None | Some(value: T)

  /** A JavaScript value. `Obj` lists an object's own enumerable properties in
      the order a for-in loop visits them, keys distinct. Numbers are integral. */
  datatype Value =
    | Undefined
    | Null
    | Bool(b: bool)
    | Num(n: int)
    | Str(s: string)
    | Obj(props: seq<(string, Value)>)
    | Arr(elems: seq<Value>)

  /** The properties of an object, in for-in order. */
  type Props = seq<(string, Value)>

  /** JavaScript truthiness: undefined, null, false, 0 and "" are falsy. */
  predicate Truthy(v: Value) {
    match v
    case Undefined => false
    case Null => false
    case Bool(b) => b
    case Num(n) => n != 0
    case Str(s) => s != ""
    case _ => true
  }

  /** `typeof v === 'object'`, which holds of null and of arrays too. */
  predicate IsObjectType(v: Value) {
    v.Null? || v.Obj? || v.Arr?
  }

  /** The pairs (k, v[k]) a `for (var k in v)` loop visits: an object's
      properties, an array's or a string's indices; nothing for the rest. */
  function Enumerate(v: Value): Props {
    match v
    case Obj(ps) => ps
    case Arr(es) => IndexEntries(es, 0)
    case Str(s) => IndexEntries(Chars(s), 0)
    case _ => []
  }

  /** The characters of `s`, each as a one-character string. */
  function Chars(s: string): (cs: seq<Value>)
    ensures |cs| == |s| && forall i :: 0 <= i < |s| ==> cs[i] == Str([s[i]])
  {
    if s == [] then [] else [Str([s[0]])] + Chars(s[1..])
  }

  /** The pairs (String(i), es[i]) for the indices `i` from `from` on. */
  function IndexEntries(es: seq<Value>, from: nat): Props
    decreases |es| - from
  {
    if from >= |es| then [] else [(NatToString(from), es[from])] + IndexEntries(es, from + 1)
  }

  /** The property names of `ps`, in order. */
  function Keys(ps: Props): (ks: seq<string>)
    ensures |ks| == |ps|
  {
    if ps == [] then [] else [ps[0].0] + Keys(ps[1..])
  }

  /** `o[k]` on an object with properties `ps`: undefined when absent. */
  function Lookup(ps: Props, k: string): Value {
    if ps == [] then Undefined
    else if ps[0].0 == k then ps[0].1
    else Lookup(ps[1..], k)
  }

  /** `v.k` for a property name that is not an index: only objects have one. */
  function GetProp(v: Value, k: string): Value {
    if v.Obj? then Lookup(v.props, k) else Undefined
  }

  /** `o[k] = v`: an existing property keeps its place, a new one goes last. */
  function SetProp(ps: Props, k: string, v: Value): (r: Props)
    ensures Lookup(r, k) == v
    ensures forall j :: j != k ==> Lookup(r, j) == Lookup(ps, j)
    ensures Keys(r) == if k in Keys(ps) then Keys(ps) else Keys(ps) + [k]
  {
    if ps == [] then [(k, v)]
    else if ps[0].0 == k then [(k, v)] + ps[1..]
    else [ps[0]] + SetProp(ps[1..], k, v)
  }

  /** The keys `ks` without `k`, the others in their order. */
  function KeysWithout(ks: seq<string>, k: string): (r: seq<string>)
    ensures forall j :: j in r <==> j in ks && j != k
  {
    if ks == [] then []
    else if ks[0] == k then KeysWithout(ks[1..], k)
    else [ks[0]] + KeysWithout(ks[1..], k)
  }

  /** `delete o[k]`: the property is gone, every other one keeps its value
      and its place. */
  function RemoveProp(ps: Props, k: string): (r: Props)
    ensures Lookup(r, k) == Undefined && k !in Keys(r)
    ensures forall j :: j != k ==> Lookup(r, j) == Lookup(ps, j)
    ensures forall j :: j != k ==> (j in Keys(r) <==> j in Keys(ps))
    ensures Keys(r) == KeysWithout(Keys(ps), k)
    ensures |r| <= |ps|
  {
    if ps == [] then []
    else if ps[0].0 == k then RemoveProp(ps[1..], k)
    else [ps[0]] + RemoveProp(ps[1..], k)
  }

  predicate IsDigit(c: char) {
    '0' <= c <= '9'
  }

  predicate AllDigits(s: string) {
    forall i :: 0 <= i < |s| ==> IsDigit(s[i])
  }

  function DigitChar(d: nat): char
    requires d < 10
  {
    "0123456789"[d]
  }

  /** The decimal digits of `n`, with no leading zero. */
  function NatToString(n: nat): (s: string)
    ensures |s| > 0 && AllDigits(s)
  {
    if n < 10 then [DigitChar(n)] else NatToString(n / 10) + [DigitChar(n % 10)]
  }

  /** `String(n)` for an integral number: plain decimal below 10^21 in
      magnitude, exponent notation (`1.5e+21`) from there on. */
  function IntToString(n: int): string {
    if n < 0 then "-" + NatToNumeral(-n) else NatToNumeral(n)
  }

  /** `String(m)` for a natural number `m`: its digits with trailing zeros
      dropped, a point after the first, and the exponent, once it has more
      than 21 digits. */
  function NatToNumeral(m: nat): string {
    var ds := NatToString(m);
    if |ds| <= 21 then ds
    else
      var sig := StripTrailingZeros(ds);
      [sig[0]] + (if |sig| > 1 then "." + sig[1..] else "") + "e+" + NatToString(|ds| - 1)
  }

  /** The magnitude from which `String` writes exponent notation. */
  const NumeralLimit: int := 1_000_000_000_000_000_000_000

  function StripTrailingZeros(s: string): (r: string)
    ensures |s| > 0 ==> |r| > 0
    ensures |r| <= |s| && r == s[..|r|]
  {
    if |s| > 1 && s[|s| - 1] == '0' then StripTrailingZeros(s[..|s| - 1]) else s
  }

  function Pow10(k: nat): (p: nat)
    ensures p >= 1
  {
    if k == 0 then 1 else 10 * Pow10(k - 1)
  }

  /** The number a string of decimal digits denotes. */
  function DigitsValue(ds: string): nat
    requires AllDigits(ds)
  {
    if ds == [] then 0
    else 10 * DigitsValue(ds[..|ds| - 1]) + (ds[|ds| - 1] as int - '0' as int)
  }

  /** `v.toString()`: a TypeError (None) on undefined and null. */
  function ToString(v: Value): (r: Option<string>)
    ensures r.None? <==> v.Undefined? || v.Null?
  {
    match v
    case Undefined => None
    case Null => None
    case Bool(b) => Some(if b then "true" else "false")
    case Num(n) => Some(IntToString(n))
    case Str(s) => Some(s)
    case Obj(_) => Some("[object Object]")
    case Arr(es) => Some(Join(es))
  }

  /** `es.join(',')`, where undefined and null elements become "". */
  function Join(es: seq<Value>): string
  {
    if es == [] then ""
    else
      var first := match ToString(es[0]) case Some(s) => s case None => "";
      if |es| == 1 then first else first + "," + Join(es[1..])
  }

  /** `String(v)`. */
  function StringOf(v: Value): string {
    match ToString(v)
    case Some(s) => s
    case None => if v.Null? then "null" else "undefined"
  }

  /** JavaScript white space and line terminators, which `parseInt` and
      `Number` skip: tab, vertical tab, form feed, space, no-break space, the
      byte order mark, the other space separators, line feed, carriage return,
      and the line and paragraph separators. */
  predicate IsSpace(c: char) {
    c == '\t' || c == '\U{0B}' || c == '\U{0C}' || c == ' ' || c == '\U{A0}' || c == '\U{FEFF}' ||
    c == '\U{1680}' || ('\U{2000}' <= c <= '\U{200A}') || c == '\U{202F}' || c == '\U{205F}' ||
    c == '\U{3000}' || c == '\n' || c == '\r' || c == '\U{2028}' || c == '\U{2029}'
  }

  function TrimStart(s: string): (t: string)
    ensures |t| <= |s|
  {
    if s != [] && IsSpace(s[0]) then TrimStart(s[1..]) else s
  }

  function TrimEnd(s: string): (t: string)
    ensures |t| <= |s|
  {
    if s != [] && IsSpace(s[|s| - 1]) then TrimEnd(s[..|s| - 1]) else s
  }

  /** Length of the longest prefix of `s` made of decimal digits. */
  function DigitRun(s: string): (n: nat)
    ensures n <= |s| && AllDigits(s[..n])
  {
    if s != [] && IsDigit(s[0]) then
      var n := 1 + DigitRun(s[1..]);
      assert s[..n] == [s[0]] + s[1..][..n - 1];
      n
    else 0
  }

  /** `parseInt(s, 10)`: optional leading white space and sign, then the
      longest run of digits; NaN (None) when there is no digit. */
  function ParseDecimalPrefix(s: string): Option<int> {
    var t := TrimStart(s);
    var negative := t != [] && t[0] == '-';
    var body := if t != [] && (t[0] == '-' || t[0] == '+') then t[1..] else t;
    var n := DigitRun(body);
    if n == 0 then None
    else if negative then Some(-(DigitsValue(body[..n]) as int))
    else Some(DigitsValue(body[..n]))
  }

  /** `parseInt(v, 10)`. */
  function ParseInt(v: Value): Option<int> {
    ParseDecimalPrefix(StringOf(v))
  }

  /** A JavaScript number: NaN, a finite value, or an infinity. */
  datatype Number = NaN | Finite(x: real) | Infinite(negative: bool)

  /** The radix of a `0x`, `0o` or `0b` literal, by its second character. */
  function RadixOf(c: char): Option<nat> {
    if c == 'x' || c == 'X' then Some(16)
    else if c == 'o' || c == 'O' then Some(8)
    else if c == 'b' || c == 'B' then Some(2)
    else None
  }

  /** The value of a digit in radix up to 16; None for any other character. */
  function DigitValue(c: char): Option<nat> {
    if '0' <= c <= '9' then Some(c as int - '0' as int)
    else if 'a' <= c <= 'f' then Some(10 + (c as int - 'a' as int))
    else if 'A' <= c <= 'F' then Some(10 + (c as int - 'A' as int))
    else None
  }

  predicate AllRadixDigits(s: string, radix: nat) {
    forall i :: 0 <= i < |s| ==> DigitValue(s[i]).Some? && DigitValue(s[i]).value < radix
  }

  function RadixValue(s: string, radix: nat): nat
    requires AllRadixDigits(s, radix)
  {
    if s == [] then 0
    else radix * RadixValue(s[..|s| - 1], radix) + DigitValue(s[|s| - 1]).value
  }

  /** An exponent part (`e`, optional sign, digits), or nothing: its value. */
  function Exponent(s: string): Option<int> {
    if s == [] then Some(0)
    else if s[0] != 'e' && s[0] != 'E' then None
    else
      var t := s[1..];
      var digits := if t != [] && (t[0] == '-' || t[0] == '+') then t[1..] else t;
      if digits == [] || !AllDigits(digits) then None
      else if t[0] == '-' then Some(-(DigitsValue(digits) as int))
      else Some(DigitsValue(digits))
  }

  /** `x` times 10 to the power `e`. */
  function Scale(x: real, e: int): real {
    if e >= 0 then x * Pow10(e) as real else x / Pow10(-e) as real
  }

  /** An unsigned decimal literal: digits, an optional point and fraction
      digits (at least one digit in all), and an optional exponent. */
  function UnsignedDecimal(t: string): Option<real> {
    var n := DigitRun(t);
    var rest := t[n..];
    if rest != [] && rest[0] == '.' then Fraction(t[..n], rest[1..])
    else if n == 0 then None
    else WithExponent(DigitsValue(t[..n]) as real, rest)
  }

  /** The part after the point: fraction digits, then an optional exponent. */
  function Fraction(whole: string, s: string): Option<real>
    requires AllDigits(whole)
  {
    var f := DigitRun(s);
    if |whole| + f == 0 then None
    else WithExponent(DigitsValue(whole) as real + DigitsValue(s[..f]) as real / Pow10(f) as real, s[f..])
  }

  function WithExponent(x: real, tail: string): Option<real> {
    match Exponent(tail)
    case None => None
    case Some(e) => Some(Scale(x, e))
  }

  /** `Number(s)`: white space at both ends is ignored, and what is left
      must be a numeric literal as a whole. */
  function StringToNumber(s: string): Number {
    NumericLiteral(TrimEnd(TrimStart(s)))
  }

  /** The empty string is 0; then a `0x`, `0o` or `0b` integer, or a signed
      decimal literal or `Infinity`; anything else is NaN. */
  function NumericLiteral(t: string): Number {
    if t == [] then Finite(0.0)
    else if |t| > 2 && t[0] == '0' && RadixOf(t[1]).Some? then
      var radix := RadixOf(t[1]).value;
      if AllRadixDigits(t[2..], radix) then Finite(RadixValue(t[2..], radix) as real) else NaN
    else SignedLiteral(t[0] == '-', if t[0] == '-' || t[0] == '+' then t[1..] else t)
  }

  /** `Infinity` or an unsigned decimal literal, after an optional sign. */
  function SignedLiteral(negative: bool, body: string): Number {
    if body == "Infinity" then Infinite(negative)
    else
      match UnsignedDecimal(body)
      case None => NaN
      case Some(x) => Finite(if negative then -x else x)
  }

  /** `Number(v)`. An object without its own `valueOf` is NaN; an array is
      the number of its joined string. */
  function ToNumber(v: Value): Number {
    match v
    case Undefined => NaN
    case Null => Finite(0.0)
    case Bool(b) => Finite(if b then 1.0 else 0.0)
    case Num(n) => Finite(n as real)
    case Str(s) => StringToNumber(s)
    case Obj(_) => NaN
    case Arr(es) => StringToNumber(Join(es))
  }

  /** `v > 0`: a NaN comparison is false. */
  predicate GreaterThanZero(v: Value) {
    match ToNumber(v)
    case Finite(x) => x > 0.0
    case Infinite(negative) => !negative
    case NaN => false
  }

  lemma {:induction false} DigitRunOfDigits(s: string)
    requires AllDigits(s)
    ensures DigitRun(s) == |s|
  {
    if s != [] {
      DigitRunOfDigits(s[1..]);
    }
  }

  lemma {:induction false} DigitsValueOfNumeral(n: nat)
    ensures DigitsValue(NatToString(n)) == n
  {
    var s := NatToString(n);
    if n >= 10 {
      DigitsValueOfNumeral(n / 10);
      assert s[..|s| - 1] == NatToString(n / 10);
    }
  }

  /** A natural number has at most `k` digits exactly when it is below 10^k. */
  lemma {:induction false} NumeralLength(m: nat, k: nat)
    requires k >= 1
    ensures m < Pow10(k) <==> |NatToString(m)| <= k
    decreases m
  {
    if m >= 10 {
      if k >= 2 {
        NumeralLength(m / 10, k - 1);
        assert m < Pow10(k) <==> m / 10 < Pow10(k - 1);
      } else {
        assert |NatToString(m / 10)| >= 1;
      }
    }
  }

  /** 10^21 is where `String` switches to exponent notation. */
  lemma LimitIsPow10()
    ensures Pow10(21) == NumeralLimit
  {
    assert Pow10(1) == 10 && Pow10(2) == 100 && Pow10(3) == 1000 && Pow10(4) == 10000;
    assert Pow10(5) == 100000 && Pow10(6) == 1000000 && Pow10(7) == 10000000 && Pow10(8) == 100000000;
    assert Pow10(9) == 1000000000 && Pow10(10) == 10000000000 && Pow10(11) == 100000000000 && Pow10(12) == 1000000000000;
    assert Pow10(13) == 10000000000000 && Pow10(14) == 100000000000000 && Pow10(15) == 1000000000000000 && Pow10(16) == 10000000000000000;
    assert Pow10(17) == 100000000000000000 && Pow10(18) == 1000000000000000000 && Pow10(19) == 10000000000000000000 && Pow10(20) == 100000000000000000000;
    assert Pow10(21) == 1000000000000000000000;
  }

  /** Below 10^21 `String` writes plain decimal. */
  lemma PlainNumeral(m: nat)
    requires m < NumeralLimit
    ensures NatToNumeral(m) == NatToString(m)
  {
    LimitIsPow10();
    NumeralLength(m, 21);
  }

  /** Below 10^21, `String` writes an integer as its sign and its digits. */
  lemma PlainIntToString(n: int)
    requires -NumeralLimit < n < NumeralLimit
    ensures IntToString(n) == (if n < 0 then "-" else "") + NatToString(if n < 0 then -n else n)
  {
    PlainNumeral(if n < 0 then -n else n);
  }

  /** `DigitRun` stops at the first character that is not a digit. */
  lemma {:induction false} DigitRunPrefix(s: string, k: nat)
    requires k <= |s| && AllDigits(s[..k]) && (k == |s| || !IsDigit(s[k]))
    ensures DigitRun(s) == k
  {
    if k > 0 {
      assert s[1..][..k - 1] == s[1..k];
      assert k < |s| ==> s[1..][k - 1] == s[k];
      DigitRunPrefix(s[1..], k - 1);
    }
  }

  /** `parseInt` of an optionally negated string that starts with `k` digits
      is the number those digits denote. */
  lemma ParsePrefix(negative: bool, s: string, k: nat)
    requires 0 < k <= |s| && AllDigits(s[..k]) && (k == |s| || !IsDigit(s[k]))
    ensures var v := DigitsValue(s[..k]) as int;
      ParseDecimalPrefix((if negative then "-" else "") + s) == Some(if negative then -v else v)
  {
    DigitRunPrefix(s, k);
    var t := (if negative then "-" else "") + s;
    assert IsDigit(s[0]);
    assert TrimStart(t) == t;
    var body := if t[0] == '-' || t[0] == '+' then t[1..] else t;
    assert body == s by {
      if negative {
        assert t[1..] == s;
      }
    }
  }

  /** `parseInt` reads back every integer `String` writes in plain decimal:
      a numeric limit or skip below 10^21 passes to the store unchanged. */
  lemma ParseIntOfNumber(n: int)
    requires -NumeralLimit < n < NumeralLimit
    ensures ParseInt(Num(n)) == Some(n)
  {
    var m := if n < 0 then -n else n;
    PlainIntToString(n);
    var digits := NatToString(m);
    DigitsValueOfNumeral(m);
    assert digits[..|digits|] == digits;
    ParsePrefix(n < 0, digits, |digits|);
  }

  /** From 10^21 on, `String` writes exponent notation and `parseInt` stops
      at the point or the `e`: it reads back only the leading digit. */
  lemma ParseIntOfLargeNumber(n: int)
    requires n <= -NumeralLimit || NumeralLimit <= n
    ensures var lead := DigitsValue(NatToString(if n < 0 then -n else n)[..1]) as int;
      ParseInt(Num(n)) == Some(if n < 0 then -lead else lead)
  {
    var m := if n < 0 then -n else n;
    NumberString(n);
    ExponentNumeral(m);
    ParsePrefix(n < 0, NatToNumeral(m), 1);
  }

  /** `String` of a number is its sign and the numeral of its magnitude. */
  lemma NumberString(n: int)
    ensures StringOf(Num(n)) == (if n < 0 then "-" else "") + NatToNumeral(if n < 0 then -n else n)
  {
  }

  /** From 10^21 on, `String` writes the leading digit and then a point or
      an exponent mark. */
  lemma ExponentNumeral(m: nat)
    requires m >= NumeralLimit
    ensures var s := NatToNumeral(m);
      |s| >= 2 && s[..1] == NatToString(m)[..1] && IsDigit(s[0]) && !IsDigit(s[1])
  {
    var ds := NatToString(m);
    LimitIsPow10();
    NumeralLength(m, 21);
    var sig := StripTrailingZeros(ds);
    assert sig[0] == ds[0];
    ExponentShape(sig, NatToString(|ds| - 1));
  }

  lemma ExponentShape(sig: string, e: string)
    requires |sig| > 0
    ensures var s := [sig[0]] + (if |sig| > 1 then "." + sig[1..] else "") + "e+" + e;
      |s| >= 2 && s[..1] == sig[..1] && (s[1] == '.' || s[1] == 'e')
  {
  }

  /** A run of digits alone is a decimal literal for the number it denotes. */
  lemma UnsignedDecimalOfDigits(digits: string)
    requires digits != [] && AllDigits(digits)
    ensures UnsignedDecimal(digits) == Some(DigitsValue(digits) as real)
  {
    DigitRunOfDigits(digits);
    assert digits[..|digits|] == digits;
    assert digits[|digits|..] == [];
    assert Pow10(0) == 1;
  }

  /** `Number` reads back every integer `String` writes in plain decimal. */
  lemma NumberOfNumeral(n: int)
    requires -NumeralLimit < n < NumeralLimit
    ensures ToNumber(Str(IntToString(n))) == Finite(n as real)
  {
    var m := if n < 0 then -n else n;
    PlainIntToString(n);
    DigitsValueOfNumeral(m);
    SignedDecimal(n < 0, NatToString(m));
  }

  /** `Number` of an optionally negated run of digits is the number they denote. */
  lemma SignedDecimal(negative: bool, digits: string)
    requires digits != [] && AllDigits(digits)
    ensures var v := DigitsValue(digits) as real;
      StringToNumber((if negative then "-" else "") + digits) == Finite(if negative then -v else v)
  {
    var s := (if negative then "-" else "") + digits;
    assert s[|s| - 1] == digits[|digits| - 1];
    Unpadded(s);
    assert !(|s| > 2 && s[0] == '0' && RadixOf(s[1]).Some?) by {
      if !negative && |s| > 2 {
        assert IsDigit(s[1]);
      }
    }
    var body := if s[0] == '-' || s[0] == '+' then s[1..] else s;
    assert body == digits by {
      if negative {
        assert s[1..] == digits;
      }
    }
    assert NumericLiteral(s) == SignedLiteral(negative, digits);
    assert digits != "Infinity" by {
      assert IsDigit(digits[0]);
    }
    UnsignedDecimalOfDigits(digits);
  }

  /** A string that neither starts nor ends with white space is not trimmed. */
  lemma Unpadded(s: string)
    requires s != [] && !IsSpace(s[0]) && !IsSpace(s[|s| - 1])
    ensures TrimEnd(TrimStart(s)) == s
  {
  }

  /** White space around a numeral is ignored: `" 1"` and `"1 "` are both one. */
  lemma PaddedOne()
    ensures StringToNumber(" 1") == Finite(1.0) && StringToNumber("1 ") == Finite(1.0)
  {
    One();
    assert TrimStart(" 1") == TrimStart("1");
    assert TrimEnd("1 ") == TrimEnd("1");
  }

  lemma One()
    ensures StringToNumber("1") == Finite(1.0)
  {
    var t := "1";
    assert TrimStart(t) == t && TrimEnd(t) == t;
    assert !(|t| > 2);
    assert t != "Infinity";
    UnsignedDecimalOfDigits(t);
    assert DigitsValue(t) == 1;
  }

  /** A fraction is read in full: `"1.5"` is one and a half. */
  lemma OneAndAHalf()
    ensures StringToNumber("1.5") == Finite(1.5)
  {
    var t := "1.5";
    assert TrimStart(t) == t;
    assert TrimEnd(t) == t;
    assert DigitRun(t) == 1 by {
      DigitRunPrefix(t, 1);
    }
    assert t[1..] == ".5" && ".5"[1..] == "5";
    assert DigitRun("5") == 1;
    assert "5"[1..] == [];
    assert Exponent([]) == Some(0);
  }

  /** A direction that reads as a positive number sorts ascending:
      white space around it is ignored and fractions count. */
  lemma AscendingDirections()
    ensures GreaterThanZero(Str(" 1")) && GreaterThanZero(Str("1 ")) && GreaterThanZero(Str("1.5"))
  {
    PaddedOne();
    OneAndAHalf();
  }

  /** Zero, a negative number and a word all sort descending. */
  lemma DescendingDirections()
    ensures !GreaterThanZero(Str("-1")) && !GreaterThanZero(Str("0")) && !GreaterThanZero(Str("asc"))
  {
    MinusOneAndZero();
    Word();
  }

  /** `"-1"` is minus one and `"0"` is zero. */
  lemma MinusOneAndZero()
    ensures StringToNumber("-1") == Finite(-1.0) && StringToNumber("0") == Finite(0.0)
  {
    MinusOne();
    Zero();
  }

  lemma MinusOne()
    ensures StringToNumber("-1") == Finite(-1.0)
  {
    SignedDecimal(true, "1");
    assert "-" + "1" == "-1";
  }

  lemma Zero()
    ensures StringToNumber("0") == Finite(0.0)
  {
    var t := "0";
    assert TrimStart(t) == t && TrimEnd(t) == t;
    assert !(|t| > 2);
    assert t != "Infinity";
    UnsignedDecimalOfDigits(t);
    assert DigitsValue(t) == 0;
  }

  /** A word is not a number. */
  lemma Word()
    ensures StringToNumber("asc") == NaN
  {
    var t := "asc";
    assert TrimStart(t) == t;
    assert TrimEnd(t) == t;
    assert !(|t| > 2 && t[0] == '0');
    assert t != "Infinity";
    assert DigitRun(t) == 0;
    assert t[0..] == t;
    assert Exponent(t) == None;
  }
}
