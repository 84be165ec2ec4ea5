/** JavaScript values as the sleep-entry form holds them: the results of JSON.parse,
    the strings typed into inputs, and the numbers parseInt/parseFloat produce. */
module JsValues {
  import opened Wrappers

  /** A JavaScript value. Numbers are reals with NaN kept apart; Infinity does not
      occur in this model. An object is its own enumerable properties. */
  datatype JsValue =
    | Undefined
    | Null
    | Bool(b: bool)
    | Num(n: real)
    | NaN
    | Str(s: string)
    | Arr(items: seq<JsValue>)
    | Obj(fields: map<string, JsValue>)

  /** JavaScript truthiness: false, 0, NaN, '', null and undefined are falsy. */
  predicate Truthy(v: JsValue) {
    match v
    case Undefined => false
    case Null => false
    case NaN => false
    case Bool(b) => b
    case Num(n) => n != 0.0
    case Str(s) => s != ""
    case Arr(_) => true
    case Obj(_) => true
  }

  predicate Nullish(v: JsValue) {
    v == Undefined || v == Null
  }

  /** `a || b` */
  function Or(a: JsValue, b: JsValue): JsValue {
    if Truthy(a) then a else b
  }

  /** `v[key]` for a property name that is not a built-in property of strings or
      arrays (every key the form code reads is such a name). Reading a property of
      null or undefined throws a TypeError. */
  function Get(v: JsValue, key: string): Result<JsValue> {
    match v
    case Undefined => Raise(TypeError)
    case Null => Raise(TypeError)
    case Obj(f) => Ok(if key in f then f[key] else Undefined)
    case _ => Ok(Undefined)
  }

  /** `v?.key`: undefined when v is nullish, otherwise the property. */
  function GetOptional(v: JsValue, key: string): JsValue {
    if Nullish(v) then Undefined else Get(v, key).value
  }

  /** A property of an object held as its field map (`obj.key`). */
  function Field(fields: map<string, JsValue>, key: string): JsValue {
    if key in fields then fields[key] else Undefined
  }

  // ----- parseInt / parseFloat over decimal text -----

  predicate IsDigit(c: char) {
    '0' <= c <= '9'
  }

  /** JSON whitespace (RFC 8259, section 2). */
  predicate IsSpace(c: char) {
    c == ' ' || c == '\t' || c == '\n' || c == '\r'
  }

  /** The characters parseInt and parseFloat skip before the number: ECMAScript's
      StrWhiteSpaceChar, that is WhiteSpace (tab, vertical tab, form feed, space,
      no-break space, the byte order mark and the other Zs characters) and
      LineTerminator (line feed, carriage return, line and paragraph separators). */
  predicate IsJsSpace(c: char) {
    || IsSpace(c)
    || c == '\U{000B}' || c == '\U{000C}' || c == '\U{00A0}' || c == '\U{FEFF}'
    || c == '\U{1680}' || '\U{2000}' <= c <= '\U{200A}' || c == '\U{202F}'
    || c == '\U{205F}' || c == '\U{3000}' || c == '\U{2028}' || c == '\U{2029}'
  }

  predicate AllDigits(s: string) {
    forall i :: 0 <= i < |s| ==> IsDigit(s[i])
  }

  predicate NoDigits(s: string) {
    forall i :: 0 <= i < |s| ==> !IsDigit(s[i])
  }

  function TrimStart(s: string): (r: string)
    ensures |r| <= |s|
  {
    if |s| > 0 && IsJsSpace(s[0]) then TrimStart(s[1..]) else s
  }

  /** Length of the run of decimal digits that starts the text. */
  function DigitRun(s: string): (n: nat)
    ensures n <= |s| && AllDigits(s[..n])
    ensures n < |s| ==> !IsDigit(s[n])
  {
    if |s| > 0 && IsDigit(s[0]) then
      var k := DigitRun(s[1..]);
      assert s[..k + 1] == [s[0]] + s[1..][..k];
      k + 1
    else 0
  }

  function DigitValue(c: char): nat
    requires IsDigit(c)
  {
    (c as int - '0' as int) as nat
  }

  /** The number a run of decimal digits denotes, read most significant first. */
  function DigitsValue(d: string): nat
    requires AllDigits(d)
  {
    if |d| == 0 then 0 else 10 * DigitsValue(d[..|d| - 1]) + DigitValue(d[|d| - 1])
  }

  function Pow10(k: nat): (r: nat)
    ensures r >= 1
  {
    if k == 0 then 1 else 10 * Pow10(k - 1)
  }

  /** Splits an optional leading sign off the text: (negative, rest). */
  function SplitSign(t: string): (bool, string) {
    if |t| > 0 && t[0] == '-' then (true, t[1..])
    else if |t| > 0 && t[0] == '+' then (false, t[1..])
    else (false, t)
  }

  function Signed(negative: bool, x: real): real {
    if negative then -x else x
  }

  /** parseInt(text) in base 10: leading white space, an optional sign and the longest
      digit run; NaN when there is no digit. */
  function ParseIntText(text: string): (r: JsValue)
    ensures r == NaN || r.Num?
  {
    var signed := SplitSign(TrimStart(text));
    var u := signed.1;
    var n := DigitRun(u);
    if n == 0 then NaN
    else Num(Signed(signed.0, DigitsValue(u[..n]) as real))
  }

  /** parseFloat(text) for decimal notation: leading white space, an optional sign, digits
      with an optional fraction; NaN when neither part has a digit. */
  function ParseFloatText(text: string): (r: JsValue)
    ensures r == NaN || r.Num?
  {
    var signed := SplitSign(TrimStart(text));
    var negative, u := signed.0, signed.1;
    var a := DigitRun(u);
    var rest := u[a..];
    var b := if |rest| > 0 && rest[0] == '.' then DigitRun(rest[1..]) else 0;
    if a == 0 && b == 0 then NaN
    else
      var whole := DigitsValue(u[..a]) as real;
      var fraction := if b == 0 then 0.0 else DigitsValue(rest[1..][..b]) as real / Pow10(b) as real;
      Num(Signed(negative, whole + fraction))
  }

  /** Truncation toward zero, the integer part JavaScript's parseInt keeps. */
  function Trunc(x: real): (r: int)
    ensures 0.0 <= x ==> r as real <= x < r as real + 1.0
    ensures x < 0.0 ==> r as real - 1.0 < x <= r as real
  {
    if x >= 0.0 then x.Floor else -((-x).Floor)
  }

  /** parseInt applied to any value: strings are parsed, numbers are truncated
      (numbers that JavaScript prints without an exponent), everything else gives NaN. */
  function ParseInt(v: JsValue): (r: JsValue)
    ensures r == NaN || r.Num?
  {
    match v
    case Str(s) => ParseIntText(s)
    case Num(n) => Num(Trunc(n) as real)
    case _ => NaN
  }

  /** parseFloat applied to any value, on the same terms as ParseInt. */
  function ParseFloat(v: JsValue): (r: JsValue)
    ensures r == NaN || r.Num?
  {
    match v
    case Str(s) => ParseFloatText(s)
    case Num(n) => Num(n)
    case _ => NaN
  }

  // ----- decimal rendering, the inverse the parsers are proved against -----

  function DigitChar(d: nat): char
    requires d < 10
  {
    ('0' as int + d) as char
  }

  /** The shortest decimal text of a natural number. */
  function NatText(n: nat): (s: string)
    ensures |s| > 0 && AllDigits(s)
    decreases n
  {
    (if n < 10 then "" else NatText(n / 10)) + [DigitChar(n % 10)]
  }

  /** The text an input of type number holds for an integer. */
  function IntText(i: int): string {
    if i < 0 then "-" + NatText(-i) else NatText(i)
  }

  lemma {:induction false} DigitsValueOfNatText(n: nat)
    ensures DigitsValue(NatText(n)) == n
    decreases n
  {
    var init := if n < 10 then "" else NatText(n / 10);
    var s := init + [DigitChar(n % 10)];
    assert s == NatText(n);
    assert s[..|s| - 1] == init;
    assert DigitValue(s[|s| - 1]) == n % 10;
    if n >= 10 {
      DigitsValueOfNatText(n / 10);
    }
    assert DigitsValue(init) == n / 10;
  }

  lemma DigitRunOfDigits(s: string)
    requires AllDigits(s)
    ensures DigitRun(s) == |s|
  {
    if |s| > 0 {
      DigitRunOfDigits(s[1..]);
    }
  }

  /** parseInt reads back exactly the integer whose decimal text it is given. */
  lemma ParseIntOfIntText(i: int)
    ensures ParseIntText(IntText(i)) == Num(i as real)
  {
    var t := IntText(i);
    var digits := if i < 0 then NatText(-i) else NatText(i);
    assert TrimStart(t) == t;
    assert SplitSign(t) == (i < 0, digits);
    DigitRunOfDigits(digits);
    assert digits[..|digits|] == digits;
    DigitsValueOfNatText(if i < 0 then -i else i);
  }

  /** parseFloat reads back the same whole number from an integer's text. */
  lemma ParseFloatOfIntText(i: int)
    ensures ParseFloatText(IntText(i)) == Num(i as real)
  {
    var t := IntText(i);
    var digits := if i < 0 then NatText(-i) else NatText(i);
    assert TrimStart(t) == t;
    assert SplitSign(t) == (i < 0, digits);
    DigitRunOfDigits(digits);
    assert digits[..|digits|] == digits;
    assert digits[|digits|..] == [];
    DigitsValueOfNatText(if i < 0 then -i else i);
  }

  /** parseInt and parseFloat pass over a leading white-space character, including
      the ones JSON does not count as white space (vertical tab, no-break space, ...). */
  lemma ParsersSkipJsSpace(c: char, text: string)
    requires IsJsSpace(c)
    ensures ParseIntText([c] + text) == ParseIntText(text)
    ensures ParseFloatText([c] + text) == ParseFloatText(text)
  {
    assert ([c] + text)[1..] == text;
  }

  /** Text without any digit, such as '' or 'abc', parses to NaN. */
  lemma ParseIntWithoutDigits(text: string)
    requires forall i :: 0 <= i < |text| ==> !IsDigit(text[i])
    ensures ParseIntText(text) == NaN
  {
    TrimStartIsSuffix(text);
    var u := SplitSign(TrimStart(text)).1;
    assert |u| > 0 ==> u[0] in text;
  }

  lemma {:induction false} TrimStartIsSuffix(s: string)
    ensures exists k :: 0 <= k <= |s| && TrimStart(s) == s[k..]
  {
    if |s| > 0 && IsJsSpace(s[0]) {
      TrimStartIsSuffix(s[1..]);
      var k :| 0 <= k <= |s[1..]| && TrimStart(s[1..]) == s[1..][k..];
      assert TrimStart(s) == s[k + 1..];
    } else {
      assert TrimStart(s) == s[0..];
    }
  }
}
