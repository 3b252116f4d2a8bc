/** The few pieces of JavaScript runtime behaviour the chord pad relies on:
    `Number()` and `String()` on DOM attribute strings, the truncating `%`,
    reading an array out of range, `Array.prototype.indexOf`, and the
    error values a throwing expression produces. */
module Js {

  datatype Option<T> = None | Some(value: T)

  /** What a thrown exception carries, as far as the model distinguishes it. */
  datatype Error =
    | Thrown(message: string)   // `throw new Error(message)`
    | TypeError                 // calling a method of `undefined`, spreading `undefined`
    | NotANumber                // arithmetic that yields NaN instead of throwing

  datatype Result<T> = Ok(value: T) | Err(error: Error)

  /** The result of `Number(s)` on the strings the model reads. */
  datatype Num = Finite(value: int) | NaN

  /** `a % b` for a positive `b`: JavaScript truncates toward zero, so the
      remainder takes the sign of `a` (Dafny's `%` is Euclidean). */
  function Rem(a: int, b: int): (r: int)
    requires b > 0
    ensures a >= 0 ==> r == a % b
    ensures a < 0 ==> -b < r <= 0
  {
    if a >= 0 then a % b else -((-a) % b)
  }

  /** `s[i]`: `undefined` outside the array. */
  function At<T>(s: seq<T>, i: int): (r: Option<T>)
    ensures r.Some? <==> 0 <= i < |s|
    ensures r.Some? ==> r.value == s[i]
  {
    if 0 <= i < |s| then Some(s[i]) else None
  }

  /** `String(v)` for a string or `undefined`, as `setAttribute` and
      template literals apply it. */
  function Stringify(v: Option<string>): (r: string)
    ensures v.Some? ==> r == v.value
    ensures v.None? ==> r == "undefined" && |r| == 9
  {
    match v
    case Some(s) => s
    case None => "undefined"
  }

  /** How `Array.prototype.join` writes one element: `undefined` and
      `null` as nothing. */
  function JoinText(v: Option<string>): (r: string)
    ensures v.Some? ==> r == v.value && r == Stringify(v)
    ensures v.None? ==> r == []
  {
    match v
    case Some(s) => s
    case None => ""
  }

  /** `s.indexOf(x)`: the first position of `x`, or -1. */
  function IndexOf<T(==)>(s: seq<T>, x: T): (r: int)
    ensures r == -1 <==> x !in s
    ensures r != -1 ==> 0 <= r < |s| && s[r] == x && x !in s[..r]
  {
    if s == [] then -1
    else if s[0] == x then 0
    else
      var k := IndexOf(s[1..], x);
      assert s[1..][..if k < 0 then 0 else k] == s[1..if k < 0 then 1 else k + 1];
      if k == -1 then -1 else k + 1
  }

  /** In a sequence without repeats the index of an element is its position. */
  lemma IndexOfDistinct<T>(s: seq<T>, i: int)
    requires forall a, b :: 0 <= a < b < |s| ==> s[a] != s[b]
    requires 0 <= i < |s|
    ensures IndexOf(s, s[i]) == i
  {
  }

  /** The index of an element's first occurrence is its position. */
  lemma IndexOfFirst<T>(s: seq<T>, i: int)
    requires 0 <= i < |s| && s[i] !in s[..i]
    ensures IndexOf(s, s[i]) == i
  {
  }

  /** Division by twelve is determined by quotient and remainder. */
  lemma DivModTwelve(x: int, k: int, p: int)
    requires x == 12 * k + p && 0 <= p < 12
    ensures x % 12 == p && x / 12 == k
  {
  }

  /** Division by 16 and by 256 likewise. */
  lemma DivModSixteen(x: int, k: int, p: int)
    requires x == 16 * k + p && 0 <= p < 16
    ensures x % 16 == p && x / 16 == k
  {
  }

  lemma DivModByte(x: int, k: int, p: int)
    requires x == 256 * k + p && 0 <= p < 256
    ensures x % 256 == p && x / 256 == k
  {
  }

  // ---- decimal text of integers ----

  predicate IsDigit(c: char) { '0' <= c <= '9' }

  predicate AllDigits(s: string) { forall i :: 0 <= i < |s| ==> IsDigit(s[i]) }

  function DigitChar(d: int): (c: char)
    requires 0 <= d < 10
    ensures IsDigit(c) && c as int - '0' as int == d
  {
    ('0' as int + d) as char
  }

  /** The decimal digits of `n`, without leading zeros. */
  function NatToString(n: nat): (s: string)
    ensures |s| >= 1 && AllDigits(s)
  {
    if n < 10 then [DigitChar(n)] else NatToString(n / 10) + [DigitChar(n % 10)]
  }

  /** The value of a string of decimal digits. */
  function DigitsValue(s: string): nat
    requires AllDigits(s)
  {
    if s == [] then 0 else DigitsValue(s[..|s| - 1]) * 10 + (s[|s| - 1] as int - '0' as int)
  }

  /** `String(i)` for an integer `i`. */
  function IntToString(i: int): (s: string)
    ensures |s| >= 1 && (s[0] == '-' || IsDigit(s[0]))
    ensures AllDigits(s[1..])
  {
    if i < 0 then "-" + NatToString(-i) else NatToString(i)
  }

  /** `Number(s)` on the strings this program writes into its numeric
      attributes: an optional minus sign followed by decimal digits, or the
      empty string, which reads as 0. Every other string is read as NaN
      here, although `Number` reads some of them as finite numbers:
      surrounding white space, a leading `+`, a decimal point, an exponent,
      a hexadecimal, binary or octal prefix, and "Infinity". */
  function ToNumber(s: string): (r: Num)
    ensures s == [] ==> r == Finite(0)
    ensures r.Finite? <==> s == [] || AllDigits(s) || (s[0] == '-' && |s| > 1 && AllDigits(s[1..]))
    ensures r.Finite? && s != [] && s[0] != '-' ==> r.value == DigitsValue(s) >= 0
    ensures r.Finite? && s != [] && s[0] == '-' ==> r.value == 0 - DigitsValue(s[1..]) <= 0
  {
    if s == [] then Finite(0)
    else if s[0] == '-' && |s| > 1 && AllDigits(s[1..]) then Finite(0 - DigitsValue(s[1..]))
    else if AllDigits(s) then Finite(DigitsValue(s))
    else NaN
  }

  /** `Number(attr) || fallback`, where a missing attribute is `null` and
      `Number(null)` is 0; both 0 and NaN are falsy. */
  function NumberOr(attr: Option<string>, fallback: int): (r: int)
    ensures attr.None? ==> r == fallback
    ensures r == fallback || r != 0
  {
    match attr
    case None => fallback
    case Some(s) =>
      match ToNumber(s)
      case Finite(v) => if v != 0 then v else fallback
      case NaN => fallback
  }

  /** `attr || fallback` for a string attribute: null and "" are falsy. */
  function StringOr(attr: Option<string>, fallback: string): (r: string)
    ensures attr.Some? && attr.value != "" ==> r == attr.value
    ensures attr.None? || attr.value == "" ==> r == fallback
  {
    if attr.Some? && attr.value != "" then attr.value else fallback
  }

  lemma {:induction false} DigitsValueOfNatToString(n: nat)
    ensures DigitsValue(NatToString(n)) == n
  {
    if n >= 10 {
      var s := NatToString(n / 10);
      DigitsValueOfNatToString(n / 10);
      assert (s + [DigitChar(n % 10)])[..|s|] == s;
    }
  }

  /** `Number(String(i)) == i`: an integer written to an attribute reads back. */
  lemma NumberOfString(i: int)
    ensures ToNumber(IntToString(i)) == Finite(i)
  {
    if i < 0 {
      var s := IntToString(i);
      assert s[1..] == NatToString(-i);
      DigitsValueOfNatToString(-i);
    } else {
      DigitsValueOfNatToString(i);
    }
  }

  /** A nonzero integer written with `String` is read back by `Number(..) || d`. */
  lemma NumberOrOfString(i: int, fallback: int)
    requires i != 0
    ensures NumberOr(Some(IntToString(i)), fallback) == i
  {
    NumberOfString(i);
  }

  /** `String` is injective on integers. */
  lemma IntToStringInjective(i: int, j: int)
    requires IntToString(i) == IntToString(j)
    ensures i == j
  {
    NumberOfString(i);
    NumberOfString(j);
  }
}
