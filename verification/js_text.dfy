/** The few JavaScript string operations the core relies on, written out:
    `String.prototype.trim`, `parseInt(s, 10)`, `Number(s)`, `String(n)`,
    `padStart(2, "0")` and `length` counted in UTF-16 code units, and the
    property names a plain object literal inherits. */
module JsText {
  import opened Wrappers

  /** WhiteSpace and LineTerminator code points of ECMAScript, as skipped by
      `trim` and `parseInt`. */
  predicate IsWhitespace(c: char) {
    || c == '\t' || c == '\n' || c == '\U{000B}' || c == '\U{000C}' || c == '\r'
    || c == ' ' || c == '\U{00A0}' || c == '\U{1680}'
    || ('\U{2000}' <= c <= '\U{200A}')
    || c == '\U{2028}' || c == '\U{2029}' || c == '\U{202F}' || c == '\U{205F}'
    || c == '\U{3000}' || c == '\U{FEFF}'
  }

  function TrimStart(s: string): (r: string)
    ensures |r| <= |s|
    ensures r == [] || !IsWhitespace(r[0])
  {
    if s != [] && IsWhitespace(s[0]) then TrimStart(s[1..]) else s
  }

  function TrimEnd(s: string): (r: string)
    ensures |r| <= |s|
    ensures r == [] || !IsWhitespace(r[|r| - 1])
  {
    if s != [] && IsWhitespace(s[|s| - 1]) then TrimEnd(s[..|s| - 1]) else s
  }

  /** What `TrimStart` keeps is a suffix of its input. */
  lemma {:induction false} TrimStartSuffix(s: string)
    ensures TrimStart(s) == s[|s| - |TrimStart(s)|..]
  {
    if s != [] && IsWhitespace(s[0]) {
      TrimStartSuffix(s[1..]);
    }
  }

  /** What `TrimEnd` keeps is a prefix of its input. */
  lemma {:induction false} TrimEndPrefix(s: string)
    ensures TrimEnd(s) == s[..|TrimEnd(s)|]
  {
    if s != [] && IsWhitespace(s[|s| - 1]) {
      TrimEndPrefix(s[..|s| - 1]);
    }
  }

  /** `s.trim()` */
  function Trim(s: string): string {
    TrimEnd(TrimStart(s))
  }

  predicate AllWhitespace(s: string) {
    forall i :: 0 <= i < |s| ==> IsWhitespace(s[i])
  }

  /** `s.trim()` is falsy (the empty string) exactly when every character of
      `s` is white space. */
  lemma TrimEmptyIff(s: string)
    ensures Trim(s) == [] <==> AllWhitespace(s)
  {
    var t := TrimStart(s);
    TrimStartEmptyIff(s);
    if t != [] {
      TrimEndAllWhitespace(t);
      assert TrimEnd(t) != [];
    }
  }

  lemma {:induction false} TrimStartEmptyIff(s: string)
    ensures TrimStart(s) == [] <==> AllWhitespace(s)
  {
    if s != [] {
      if IsWhitespace(s[0]) {
        TrimStartEmptyIff(s[1..]);
        assert AllWhitespace(s) <==> AllWhitespace(s[1..]) by {
          if AllWhitespace(s[1..]) {
            forall i | 0 <= i < |s| ensures IsWhitespace(s[i]) {
              if i > 0 { assert s[i] == s[1..][i - 1]; }
            }
          }
        }
      } else {
        assert !AllWhitespace(s);
      }
    }
  }

  /** Whatever `TrimEnd` drops is white space. */
  lemma {:induction false} TrimEndAllWhitespace(s: string)
    ensures AllWhitespace(s[|TrimEnd(s)|..])
  {
    if s != [] && IsWhitespace(s[|s| - 1]) {
      var p := s[..|s| - 1];
      TrimEndAllWhitespace(p);
      assert s[|TrimEnd(s)|..] == p[|TrimEnd(p)|..] + [s[|s| - 1]];
    }
  }

  /** `s.length`: astral characters take two UTF-16 code units. */
  function Utf16Length(s: string): (n: nat)
    ensures |s| <= n <= 2 * |s|
  {
    if s == [] then 0
    else (if s[0] as int > 0xFFFF then 2 else 1) + Utf16Length(s[1..])
  }

  predicate IsDigit(c: char) { '0' <= c <= '9' }

  function DigitValue(c: char): nat
    requires IsDigit(c)
  {
    c as int - '0' as int
  }

  function DigitChar(d: nat): (c: char)
    requires d < 10
    ensures IsDigit(c) && DigitValue(c) == d
  {
    (d + '0' as int) as char
  }

  predicate AllDigits(s: string) {
    forall i :: 0 <= i < |s| ==> IsDigit(s[i])
  }

  /** The value of a run of decimal digits, most significant first. */
  function DigitsValue(s: string): nat
    requires AllDigits(s)
  {
    if s == [] then 0 else 10 * DigitsValue(s[..|s| - 1]) + DigitValue(s[|s| - 1])
  }

  /** The decimal digits of `n`, without leading zeros. */
  function NatToString(n: nat): (s: string)
    ensures s != [] && AllDigits(s)
    ensures |s| == 1 <==> n < 10
  {
    if n < 10 then [DigitChar(n)] else NatToString(n / 10) + [DigitChar(n % 10)]
  }

  /** `String(n)` for an integer `n`. */
  function IntToString(n: int): (s: string)
    ensures s != []
  {
    if n < 0 then "-" + NatToString(-n) else NatToString(n)
  }

  lemma {:induction false} NatToStringValue(n: nat)
    ensures DigitsValue(NatToString(n)) == n
  {
    if n >= 10 {
      NatToStringValue(n / 10);
      var s := NatToString(n);
      assert s[..|s| - 1] == NatToString(n / 10);
    }
  }

  /** The longest prefix of `s` made of decimal digits. */
  function DigitRun(s: string): (r: string)
    ensures |r| <= |s| && r == s[..|r|] && AllDigits(r)
    ensures |r| == |s| || !IsDigit(s[|r|])
  {
    if s == [] || !IsDigit(s[0]) then [] else [s[0]] + DigitRun(s[1..])
  }

  lemma {:induction false} DigitRunOfDigits(s: string)
    requires AllDigits(s)
    ensures DigitRun(s) == s
  {
    if s != [] {
      DigitRunOfDigits(s[1..]);
    }
  }

  /** `parseInt(s, 10)`: skip leading white space, read an optional sign and
      the longest run of digits after it; `None` stands for `NaN`. */
  function ParseInt(s: string): (r: Option<int>)
    ensures r.None? <==> DigitRun(SignDropped(TrimStart(s))) == []
  {
    var t := TrimStart(s);
    var negative := t != [] && t[0] == '-';
    var digits := DigitRun(SignDropped(t));
    if digits == [] then None
    else if negative then Some(0 - DigitsValue(digits))
    else Some(DigitsValue(digits) as int)
  }

  function SignDropped(t: string): string {
    if t != [] && (t[0] == '-' || t[0] == '+') then t[1..] else t
  }

  /** The sign of `String(n)` is a leading '-' exactly for negative `n`;
      without it the digits of the magnitude remain. */
  lemma IntToStringSign(n: int)
    ensures IntToString(n)[0] == '-' <==> n < 0
    ensures SignDropped(IntToString(n)) == NatToString(if n < 0 then -n else n)
  {
    var d := NatToString(if n < 0 then -n else n);
    assert IsDigit(d[0]);
    if n < 0 {
      assert ("-" + d)[1..] == d;
    }
  }

  /** `parseInt(String(n), 10) == n`: the decimal form of an integer reads
      back as that integer. */
  lemma IntToStringParses(n: int)
    ensures ParseInt(IntToString(n)) == Some(n)
  {
    var m := if n < 0 then -n else n;
    var digits := NatToString(m);
    DigitRunOfDigits(digits);
    NatToStringValue(m);
    IntToStringSign(n);
    var s := IntToString(n);
    assert TrimStart(s) == s by {
      assert !IsWhitespace(s[0]);
    }
  }

  /** `Number(s)` for strings holding an integer literal: white space is
      trimmed, the empty string gives 0, an optional sign may precede the
      digits; anything else gives `NaN` (`None`). */
  function ToNumber(s: string): (r: Option<int>)
    ensures Trim(s) == [] ==> r == Some(0)
  {
    var t := Trim(s);
    var body := SignDropped(t);
    if t == [] then Some(0)
    else if body == [] || !AllDigits(body) then None
    else if t[0] == '-' then Some(0 - DigitsValue(body))
    else Some(DigitsValue(body) as int)
  }

  /** `Number(String(n)) == n`. */
  lemma IntToStringNumber(n: int)
    ensures ToNumber(IntToString(n)) == Some(n)
  {
    var m := if n < 0 then -n else n;
    var digits := NatToString(m);
    NatToStringValue(m);
    var s := IntToString(n);
    IntToStringSign(n);
    assert IsDigit(s[|s| - 1]) by {
      assert s[|s| - 1] == digits[|digits| - 1];
    }
    TrimOfUnpadded(s);
    assert s != [] && AllDigits(SignDropped(s));
    assert DigitsValue(digits) == m;
  }

  /** A run of digits followed by something that is not a digit is the
      whole run `parseInt` reads. */
  lemma {:induction false} DigitRunStops(x: string, y: string)
    requires AllDigits(x)
    requires y == [] || !IsDigit(y[0])
    ensures DigitRun(x + y) == x
  {
    if x != [] {
      assert (x + y)[1..] == x[1..] + y;
      DigitRunStops(x[1..], y);
    }
  }

  /** Where `Number(s)` reads a non-blank `s` as a number, `parseInt(s, 10)`
      reads the same number: the two only part ways on input `Number`
      rejects (trailing garbage) or on blank input. */
  lemma NumberAgreesWithParseInt(s: string)
    requires Trim(s) != [] && ToNumber(s).Some?
    ensures ParseInt(s) == ToNumber(s)
  {
    var u := TrimStart(s);
    var t := Trim(s);
    TrimEndPrefix(u);
    TrimEndAllWhitespace(u);
    assert t == u[..|t|];
    var k := if t[0] == '-' || t[0] == '+' then 1 else 0;
    assert SignDropped(t) == u[k..|t|];
    assert SignDropped(u) == u[k..|t|] + u[|t|..];
    DigitRunStops(u[k..|t|], u[|t|..]);
  }

  lemma TrimOfUnpadded(s: string)
    requires s != [] && !IsWhitespace(s[0]) && !IsWhitespace(s[|s| - 1])
    ensures Trim(s) == s
  {
    assert TrimStart(s) == s;
  }

  /** `String(n).padStart(2, "0")` for `n >= 0`. */
  function PadTwo(n: nat): (s: string)
    ensures n < 100 ==> |s| == 2 && AllDigits(s) && DigitsValue(s) == n
  {
    var d := NatToString(n);
    NatToStringValue(n);
    if |d| >= 2 then d
    else
      assert ("0" + d)[..1] == "0";
      "0" + d
  }

  /** The property names an object created by `{}` inherits from
      `Object.prototype`: reading one of them on an empty object gives a
      function (or, for `__proto__`, the prototype itself), never
      `undefined`. */
  const InheritedKeys: set<string> := {
    "constructor", "__defineGetter__", "__defineSetter__", "hasOwnProperty",
    "__lookupGetter__", "__lookupSetter__", "isPrototypeOf", "propertyIsEnumerable",
    "toString", "valueOf", "__proto__", "toLocaleString"
  }

  /** The one inherited name whose assignment, `o["__proto__"] = v` with an
      object `v`, replaces the prototype instead of adding an own property. */
  const ProtoKey := "__proto__"
}
