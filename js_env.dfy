/**
 * The settings DatabaseWatcher.ts derives from the process environment when it
 * is loaded, together with the JavaScript conversions they pass through:
 * `String(v)` of a possibly unset variable, `toLowerCase()`, and `parseInt`
 * with no radix (ECMAScript's algorithm: leading white space, an optional sign,
 * an optional "0x" prefix, then the longest run of digits; no digit is NaN).
 */
module JsEnv {
  import opened Wrappers

  /** The three variables read once, when the watcher module is loaded. */
  datatype Env = Env(
    pingInterval: Option<string>,        // MULTIPLE_INSTANCES_PING_INTERVAL
    ignoreChangeStream: Option<string>,  // IGNORE_CHANGE_STREAM
    useNativeOplog: Option<string>       // USE_NATIVE_OPLOG
  )

  /** Fallback ping interval, in milliseconds. */
  const DefaultPing: int := 10000

  /** `String(v)`: an unset variable is `undefined`, whose text is "undefined". */
  function JsString(v: Option<string>): string
  {
    match v
    case None => "undefined"
    case Some(s) => s
  }

  /** ECMAScript's white space and line terminators (StrWhiteSpaceChar), which `parseInt` skips. */
  predicate IsJsWhiteSpace(c: char)
  {
    c == '\t' || c == '\n' || c == '\U{000B}' || c == '\U{000C}' || c == '\r' || c == ' '
    || c == '\U{00A0}' || c == '\U{1680}' || ('\U{2000}' <= c <= '\U{200A}')
    || c == '\U{2028}' || c == '\U{2029}' || c == '\U{202F}' || c == '\U{205F}'
    || c == '\U{3000}' || c == '\U{FEFF}'
  }

  /** `s` without its leading white space. */
  function TrimStart(s: string): (r: string)
    ensures |r| <= |s| && r == s[|s| - |r|..]
    ensures r == [] || !IsJsWhiteSpace(r[0])
    ensures forall i :: 0 <= i < |s| - |r| ==> IsJsWhiteSpace(s[i])
  {
    if |s| > 0 && IsJsWhiteSpace(s[0]) then TrimStart(s[1..]) else s
  }

  /** The value of `c` as a digit of radix up to 36, as `parseInt` reads it. */
  function DigitValue(c: char): (d: Option<nat>)
    ensures d.Some? ==> d.value < 36
    ensures ('0' <= c <= '9') <==> (d.Some? && d.value < 10)
  {
    if '0' <= c <= '9' then Some(c as int - '0' as int)
    else if 'a' <= c <= 'z' then Some(c as int - 'a' as int + 10)
    else if 'A' <= c <= 'Z' then Some(c as int - 'A' as int + 10)
    else None
  }

  predicate IsRadixDigit(c: char, radix: nat)
  {
    DigitValue(c).Some? && DigitValue(c).value < radix
  }

  /** The length of the longest prefix of `s` that consists of radix-`radix` digits. */
  function DigitRun(s: string, radix: nat): (n: nat)
    ensures n <= |s|
    ensures forall i :: 0 <= i < n ==> IsRadixDigit(s[i], radix)
    ensures n < |s| ==> !IsRadixDigit(s[n], radix)
  {
    if |s| > 0 && IsRadixDigit(s[0], radix) then 1 + DigitRun(s[1..], radix) else 0
  }

  /** The number a string of digits denotes, most significant digit first. */
  function DigitsValue(s: string, radix: nat): nat
  {
    if s == [] then 0 else DigitsValue(s[..|s| - 1], radix) * radix + DigitOf(s[|s| - 1])
  }

  function DigitOf(c: char): nat
  {
    match DigitValue(c)
    case Some(d) => d
    case None => 0
  }

  /** `parseInt(s)` with no radix; `None` stands for NaN. */
  function ParseInt(s: string): Option<int>
  {
    ParseTrimmed(TrimStart(s))
  }

  /** `parseInt` after the leading white space: an optional sign, then the magnitude. */
  function ParseTrimmed(t: string): Option<int>
  {
    var negative := |t| > 0 && t[0] == '-';
    var unsigned := if |t| > 0 && (t[0] == '-' || t[0] == '+') then t[1..] else t;
    match ParseMagnitude(unsigned)
    case None => None
    case Some(m) => Some(Signed(negative, m))
  }

  function Signed(negative: bool, m: nat): int
  {
    if negative then -(m as int) else m
  }

  /** An optional "0x"/"0X" prefix selecting radix 16, then the longest run of digits. */
  function ParseMagnitude(u: string): Option<nat>
  {
    var hex := |u| >= 2 && u[0] == '0' && (u[1] == 'x' || u[1] == 'X');
    var radix := if hex then 16 else 10;
    var body := if hex then u[2..] else u;
    var n := DigitRun(body, radix);
    if n == 0 then None else Some(DigitsValue(body[..n], radix))
  }

  /** The canonical decimal text of `n`, as `String(n)` writes a natural number. */
  function Decimal(n: nat): (s: string)
    ensures |s| > 0
    ensures forall i :: 0 <= i < |s| ==> '0' <= s[i] <= '9'
    ensures n > 0 ==> s[0] != '0'
  {
    if n < 10 then [('0' as int + n) as char]
    else Decimal(n / 10) + [('0' as int + n % 10) as char]
  }

  lemma {:induction false} DecimalValue(n: nat)
    ensures DigitsValue(Decimal(n), 10) == n
  {
    var s := Decimal(n);
    if n >= 10 {
      DecimalValue(n / 10);
      assert s[..|s| - 1] == Decimal(n / 10);
    }
  }

  /** Leading white space never changes what `parseInt` reads. */
  lemma {:induction false} TrimStartSkipsWhiteSpace(ws: string, s: string)
    requires forall i :: 0 <= i < |ws| ==> IsJsWhiteSpace(ws[i])
    ensures TrimStart(ws + s) == TrimStart(s)
  {
    if ws != [] {
      assert (ws + s)[0] == ws[0] && IsJsWhiteSpace(ws[0]);
      assert TrimStart(ws + s) == TrimStart((ws + s)[1..]);
      assert (ws + s)[1..] == ws[1..] + s;
      TrimStartSkipsWhiteSpace(ws[1..], s);
    } else {
      assert ws + s == s;
    }
  }

  lemma ParseIntSkipsWhiteSpace(ws: string, s: string)
    requires forall i :: 0 <= i < |ws| ==> IsJsWhiteSpace(ws[i])
    ensures ParseInt(ws + s) == ParseInt(s)
  {
    TrimStartSkipsWhiteSpace(ws, s);
  }

  /**
   * A decimal number, optionally preceded by "-", is read back exactly, and
   * `parseInt` stops at the first character that is not a digit ("250ms" is 250).
   * Only "0x" or "0X" at the start switches to hexadecimal.
   */
  lemma ParseIntDecimal(n: nat, negative: bool, rest: string)
    requires rest == [] || (!('0' <= rest[0] <= '9') && (n == 0 ==> rest[0] != 'x' && rest[0] != 'X'))
    ensures ParseInt((if negative then "-" else "") + Decimal(n) + rest) == Some(Signed(negative, n))
  {
    var u := Decimal(n) + rest;
    var s := (if negative then "-" else "") + u;
    assert s == (if negative then "-" else "") + Decimal(n) + rest;
    assert u[0] == Decimal(n)[0];
    NoWhiteSpaceFirst(s);
    ParseMagnitudeDecimal(n, rest);
    ParseTrimmedSign(negative, u);
  }

  lemma NoWhiteSpaceFirst(s: string)
    requires |s| > 0 && !IsJsWhiteSpace(s[0])
    ensures ParseInt(s) == ParseTrimmed(s)
  {
  }

  lemma ParseTrimmedSign(negative: bool, u: string)
    requires |u| > 0 && '0' <= u[0] <= '9'
    ensures ParseTrimmed((if negative then "-" else "") + u) ==
      match ParseMagnitude(u)
      case None => None
      case Some(m) => Some(Signed(negative, m))
  {
    var t := (if negative then "-" else "") + u;
    assert t[0] == (if negative then '-' else u[0]);
    if negative {
      assert t[1..] == u;
    } else {
      assert t == u;
    }
  }

  lemma ParseMagnitudeDecimal(n: nat, rest: string)
    requires rest == [] || (!('0' <= rest[0] <= '9') && (n == 0 ==> rest[0] != 'x' && rest[0] != 'X'))
    ensures ParseMagnitude(Decimal(n) + rest) == Some(n)
  {
    var ds := Decimal(n);
    var u := ds + rest;
    assert !(|u| >= 2 && u[0] == '0' && (u[1] == 'x' || u[1] == 'X')) by {
      if n == 0 { assert ds == "0"; }
      assert u[0] == ds[0];
    }
    DigitRunStopsAfter(ds, rest);
    assert u[..|ds|] == ds;
    DecimalValue(n);
  }

  /** The digit run of `ds + rest` is exactly `ds` when `ds` is all decimal digits and `rest` does not go on with one. */
  lemma DigitRunStopsAfter(ds: string, rest: string)
    requires forall i :: 0 <= i < |ds| ==> '0' <= ds[i] <= '9'
    requires rest == [] || !('0' <= rest[0] <= '9')
    ensures DigitRun(ds + rest, 10) == |ds|
  {
    var u := ds + rest;
    assert forall i :: 0 <= i < |ds| ==> u[i] == ds[i];
    assert |rest| > 0 ==> u[|ds|] == rest[0];
  }

  /** ASCII case folding of one character. */
  function AsciiLower(c: char): char
  {
    if 'A' <= c <= 'Z' then (c as int - 'A' as int + 'a' as int) as char else c
  }

  /** `String(v).toLowerCase()` for the strings the flags are compared with. */
  function ToLowerCase(s: string): (r: string)
    ensures |r| == |s|
  {
    seq(|s|, i requires 0 <= i < |s| => AsciiLower(s[i]))
  }

  /** `["yes", "true"].includes(String(v).toLowerCase())`. */
  predicate EnvFlag(v: Option<string>): (b: bool)
    ensures b <==> v.Some? && (ToLowerCase(v.value) == "yes" || ToLowerCase(v.value) == "true")
  {
    var l := ToLowerCase(JsString(v));
    l == "yes" || l == "true"
  }

  /** A flag is on exactly when its value is "yes" or "true" in some mix of cases, and an unset flag is off. */
  lemma EnvFlagMeaning(s: string)
    ensures EnvFlag(Some(s)) == EnvFlag(Some(ToLowerCase(s)))
    ensures !EnvFlag(None)
    ensures EnvFlag(Some("TRUE")) && EnvFlag(Some("Yes")) && EnvFlag(Some("true"))
    ensures !EnvFlag(Some("1")) && !EnvFlag(Some("on")) && !EnvFlag(Some(" true"))
  {
    assert ToLowerCase(ToLowerCase(s)) == ToLowerCase(s);
    assert ToLowerCase("TRUE") == "true";
    assert ToLowerCase("Yes") == "yes";
    assert ToLowerCase("true") == "true";
  }

  /** `parseInt(String(v)) || 10000`: NaN and 0 are falsy, so both fall back to 10000 ms. */
  function InstancePing(v: Option<string>): (ping: int)
    ensures ping != 0
    ensures ping == DefaultPing || ParseInt(JsString(v)) == Some(ping)
  {
    match ParseInt(JsString(v))
    case Some(n) => if n != 0 then n else DefaultPing
    case None => DefaultPing
  }

  /** The staleness bound: four times the ping interval. */
  function MaxDocMs(v: Option<string>): (bound: int)
    ensures bound != 0 && bound % 4 == 0
  {
    Quadruple(InstancePing(v))
  }

  function Quadruple(p: int): (r: int)
    requires p != 0
    ensures r != 0 && r % 4 == 0
  {
    p * 4
  }

  /** An unset interval gives 10000 ms. */
  lemma InstancePingUnset()
    ensures InstancePing(None) == DefaultPing
  {
    ParseIntUndefined();
    PingOfNaN(None);
  }

  lemma ParseIntUndefined()
    ensures ParseInt("undefined") == None
  {
    var u := "undefined";
    assert u[0] == 'u';
    ParseIntLetterFirst(u);
  }

  /** Text that starts with a letter is NaN to `parseInt` (the letter is no decimal digit, and no sign or "0x"). */
  lemma ParseIntLetterFirst(s: string)
    requires |s| > 0 && 'a' <= s[0] <= 'z'
    ensures ParseInt(s) == None
  {
    NoWhiteSpaceFirst(s);
    assert DigitRun(s, 10) == 0;
  }

  /** When `parseInt` gives NaN, `||` falls back to 10000 ms. */
  lemma PingOfNaN(v: Option<string>)
    requires ParseInt(JsString(v)) == None
    ensures InstancePing(v) == DefaultPing
  {
  }

  /** A decimal interval is taken as written, except "0", which gives 10000 ms. */
  lemma InstancePingDecimal(n: nat, rest: string)
    requires rest == [] || (!('0' <= rest[0] <= '9') && (n == 0 ==> rest[0] != 'x' && rest[0] != 'X'))
    ensures InstancePing(Some(Decimal(n) + rest)) == if n == 0 then DefaultPing else n
  {
    ParseIntNatural(n, rest);
    PingOfParsed(Some(Decimal(n) + rest), n);
  }

  lemma ParseIntNatural(n: nat, rest: string)
    requires rest == [] || (!('0' <= rest[0] <= '9') && (n == 0 ==> rest[0] != 'x' && rest[0] != 'X'))
    ensures ParseInt(Decimal(n) + rest) == Some(n)
  {
    var s := Decimal(n) + rest;
    assert s[0] == Decimal(n)[0];
    NoWhiteSpaceFirst(s);
    ParseMagnitudeDecimal(n, rest);
    ParseTrimmedSign(false, s);
  }

  /** A parsed interval is used as is, except 0, which is falsy and gives 10000 ms. */
  lemma PingOfParsed(v: Option<string>, n: int)
    requires ParseInt(JsString(v)) == Some(n)
    ensures InstancePing(v) == if n == 0 then DefaultPing else n
  {
  }
}
