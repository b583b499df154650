/** Amounts in minor units, printed for providers and read back, in 64 bits. */
module Amounts {
  import opened Wrappers
  import opened Text

  // ---- minor units ------------------------------------------------------

  /** Currencies without minor units in ISO 4217 table A.1. */
  function ZeroDecimals(): seq<string> {
    ["BIF", "CLP", "DJF", "GNF", "ISK", "JPY", "KMF", "KRW", "PYG", "RWF", "UGX", "VND", "VUV", "XAF", "XOF", "XPF"]
  }

  /** Currencies whose minor unit is a thousandth. */
  function ThreeDecimals(): seq<string> {
    ["BHD", "IQD", "JOD", "KWD", "LYD", "OMR", "TND"]
  }

  /** The codes with a space before each and after the last. */
  function Spaced(codes: seq<string>): (s: string)
    ensures s != [] && s[0] == ' '
  {
    if codes == [] then " " else " " + codes[0] + Spaced(codes[1..])
  }

  predicate At(text: string, part: string, i: int) {
    0 <= i <= |text| - |part| && forall k :: 0 <= k < |part| ==> text[i + k] == part[k]
  }

  predicate Contains(text: string, part: string) {
    exists i {:trigger At(text, part, i)} :: 0 <= i <= |text| && At(text, part, i)
  }

  function Exponent(currency: string): (exp: nat)
    ensures exp == 0 || exp == 2 || exp == 3
  {
    var code := " " + ToUpper(TrimSpace(currency)) + " ";
    if Contains(Spaced(ZeroDecimals()), code) then 0
    else if Contains(Spaced(ThreeDecimals()), code) then 3
    else 2
  }

  predicate SpaceFree(s: string) {
    forall k :: 0 <= k < |s| ==> s[k] != ' '
  }

  /** Some codes that stand next to each other in the list, with single spaces between. */
  predicate Consecutive(codes: seq<string>, x: string) {
    exists i, j :: 0 <= i < j <= |codes| && x == Join(codes[i..j], ' ')
  }

  predicate Beginning(codes: seq<string>, x: string) {
    exists j :: 1 <= j <= |codes| && x == Join(codes[..j], ' ')
  }

  predicate AllSpaceFree(codes: seq<string>) {
    forall i :: 0 <= i < |codes| ==> SpaceFree(codes[i])
  }

  /** A text found at the front goes at least as far as the first code; past it, what
      follows is found at the front of the rest. */
  lemma FoundFirst(code: string, rest: string, x: string)
    requires SpaceFree(code) && rest != [] && rest[0] == ' '
    requires At(" " + code + rest, " " + x + " ", 0)
    ensures x == code || (|x| > |code| && x[..|code| + 1] == code + " " && At(rest, " " + x[|code| + 1..] + " ", 0))
  {
    hide At;
    FirstFits(code, rest, x);
    if |x| > |code| {
      var y := x[|code| + 1..];
      assert x == code + " " + y;
      FirstRest(code, rest, y);
    }
  }

  lemma FirstFits(code: string, rest: string, x: string)
    requires SpaceFree(code) && rest != [] && rest[0] == ' '
    requires At(" " + code + rest, " " + x + " ", 0)
    ensures |x| >= |code| && x[..|code|] == code && (|x| > |code| ==> x[|code|] == ' ')
  {
    var text, part := " " + code + rest, " " + x + " ";
    assert part[1 + |x|] == ' ' && text[0 + (1 + |x|)] == ' ';
    InCode(code, rest, 1 + |x|);
    assert forall k :: 0 <= k < |code| ==> x[k] == part[1 + k] == text[0 + (1 + k)] == code[k];
    assert |x| > |code| ==> x[|code|] == part[1 + |code|] == text[0 + (1 + |code|)];
  }

  lemma InCode(code: string, rest: string, k: nat)
    requires SpaceFree(code) && 1 <= k < 1 + |code| + |rest|
    ensures k < 1 + |code| ==> (" " + code + rest)[k] != ' '
  {
  }

  lemma FirstRest(code: string, rest: string, y: string)
    requires At(" " + code + rest, " " + (code + " " + y) + " ", 0)
    ensures At(rest, " " + y + " ", 0)
  {
    var text, part, next := " " + code + rest, " " + (code + " " + y) + " ", " " + y + " ";
    assert part == (" " + code) + next && text == (" " + code) + rest;
    assert forall k :: 0 <= k < |next| ==> next[k] == part[1 + |code| + k];
    assert forall k :: 0 <= k < |next| ==> rest[0 + k] == text[0 + (1 + |code| + k)] == next[k];
  }

  lemma FoundHere(code: string, rest: string)
    requires rest != [] && rest[0] == ' '
    ensures At(" " + code + rest, " " + code + " ", 0)
  {
  }

  lemma FoundOn(code: string, rest: string, y: string)
    requires At(rest, " " + y + " ", 0)
    ensures At(" " + code + rest, " " + (code + " " + y) + " ", 0)
  {
    var text, part := " " + code + rest, " " + (code + " " + y) + " ";
    assert text == (" " + code) + rest && part == (" " + code) + (" " + y + " ");
    assert forall k :: 0 <= k < |part| ==> text[0 + k] == part[k];
  }

  lemma FoundPast(code: string, rest: string, part: string, i: nat)
    requires SpaceFree(code) && part != [] && part[0] == ' ' && 0 < i && At(" " + code + rest, part, i)
    ensures i >= 1 + |code| && At(rest, part, i - 1 - |code|)
  {
    var text := " " + code + rest;
    assert text[i + 0] == ' ';
    assert forall k :: 1 <= k < 1 + |code| ==> text[k] == code[k - 1];
    assert forall k :: 1 <= k < 1 + |code| ==> text[k] != ' ';
    assert rest == text[1 + |code|..];
    var j := i - 1 - |code|;
    assert forall k :: 0 <= k < |part| ==> rest[j + k] == text[i + k] == part[k];
  }

  lemma FoundLater(code: string, rest: string, part: string, j: nat)
    requires At(rest, part, j)
    ensures At(" " + code + rest, part, 1 + |code| + j)
  {
    var text := " " + code + rest;
    assert rest == text[1 + |code|..];
    assert forall k :: 0 <= k < |part| ==> text[1 + |code| + j + k] == rest[j + k] == part[k];
  }

  lemma JoinFirst(codes: seq<string>, j: nat)
    requires 1 <= j <= |codes|
    ensures Join(codes[..j], ' ') == if j == 1 then codes[0] else codes[0] + " " + Join(codes[1..][..j - 1], ' ')
  {
    assert codes[..j][1..] == codes[1..][..j - 1];
  }

  lemma {:induction false} FrontExact(codes: seq<string>, x: string)
    requires AllSpaceFree(codes)
    ensures At(Spaced(codes), " " + x + " ", 0) <==> Beginning(codes, x)
    decreases |codes|
  {
    if codes != [] {
      hide At, SpaceFree, Join;
      var rest := Spaced(codes[1..]);
      assert Spaced(codes) == " " + codes[0] + rest;
      if At(Spaced(codes), " " + x + " ", 0) {
        FoundFirst(codes[0], rest, x);
        if x == codes[0] {
          JoinFirst(codes, 1);
        } else {
          var y := x[|codes[0]| + 1..];
          FrontExact(codes[1..], y);
          var j :| 1 <= j <= |codes[1..]| && y == Join(codes[1..][..j], ' ');
          JoinFirst(codes, j + 1);
          assert x == codes[0] + " " + y;
        }
      }
      if Beginning(codes, x) {
        var j :| 1 <= j <= |codes| && x == Join(codes[..j], ' ');
        JoinFirst(codes, j);
        if j == 1 {
          FoundHere(x, rest);
        } else {
          var y := Join(codes[1..][..j - 1], ' ');
          FrontExact(codes[1..], y);
          FoundOn(codes[0], rest, y);
        }
      }
    }
  }

  /** Searching the spaced list for a spaced text finds exactly the codes that stand next
      to each other in it. */
  lemma {:induction false} ContainsExact(codes: seq<string>, x: string)
    requires AllSpaceFree(codes)
    ensures Contains(Spaced(codes), " " + x + " ") <==> Consecutive(codes, x)
    decreases |codes|
  {
    if codes != [] {
      hide At, SpaceFree, Contains, Consecutive, Beginning;
      FrontExact(codes, x);
      ContainsExact(codes[1..], x);
      FoundSplit(codes[0], Spaced(codes[1..]), " " + x + " ");
      RunsSplit(codes, x);
    }
  }

  lemma FoundSplit(code: string, rest: string, part: string)
    requires SpaceFree(code) && part != [] && part[0] == ' '
    ensures Contains(" " + code + rest, part) <==> At(" " + code + rest, part, 0) || Contains(rest, part)
  {
    hide At, SpaceFree;
    var text := " " + code + rest;
    if Contains(text, part) {
      var i: int :| 0 <= i <= |text| && At(text, part, i);
      if i > 0 {
        FoundPast(code, rest, part, i);
      }
    }
    if Contains(rest, part) {
      var j: int :| 0 <= j <= |rest| && At(rest, part, j);
      FoundLater(code, rest, part, j);
    }
  }

  /** A run starts at the first code or lies in the rest. */
  lemma RunsSplit(codes: seq<string>, x: string)
    requires codes != []
    ensures Consecutive(codes, x) <==> Beginning(codes, x) || Consecutive(codes[1..], x)
  {
    hide Join;
    if Consecutive(codes, x) {
      var i, j :| 0 <= i < j <= |codes| && x == Join(codes[i..j], ' ');
      if i == 0 {
        assert codes[0..j] == codes[..j];
      } else {
        assert codes[1..][i - 1..j - 1] == codes[i..j];
      }
    }
    if Beginning(codes, x) {
      var j :| 1 <= j <= |codes| && x == Join(codes[..j], ' ');
      assert codes[0..j] == codes[..j];
    }
    if Consecutive(codes[1..], x) {
      var i, j :| 0 <= i < j <= |codes[1..]| && x == Join(codes[1..][i..j], ' ');
      assert codes[1..][i..j] == codes[i + 1..j + 1];
    }
  }

  lemma RunOfOne(codes: seq<string>)
    requires codes != []
    ensures SpaceFree(Join(codes, ' ')) ==> |codes| == 1
  {
    if |codes| > 1 {
      assert Join(codes, ' ')[|codes[0]|] == ' ';
    }
  }

  /** Without a space inside, a run of codes is one code. */
  lemma OneCode(codes: seq<string>, x: string)
    requires SpaceFree(x)
    ensures Consecutive(codes, x) <==> x in codes
  {
    if Consecutive(codes, x) {
      var i, j :| 0 <= i < j <= |codes| && x == Join(codes[i..j], ' ');
      RunOfOne(codes[i..j]);
      assert x == codes[i];
    }
    if x in codes {
      var i :| 0 <= i < |codes| && codes[i] == x;
      assert codes[i..i + 1] == [x];
      assert x == Join(codes[i..i + 1], ' ');
    }
  }

  lemma CodesSpaceFree()
    ensures AllSpaceFree(ZeroDecimals()) && AllSpaceFree(ThreeDecimals())
  {
  }

  /** For every text: the search by spaced text gives a currency no decimals, or three,
      when it is one of those codes or several that stand next to each other in the
      table, and two otherwise. */
  lemma ExponentExact(currency: string)
    ensures
      var x := ToUpper(TrimSpace(currency));
      Exponent(currency)
      == if Consecutive(ZeroDecimals(), x) then 0 else if Consecutive(ThreeDecimals(), x) then 3 else 2
  {
    hide ZeroDecimals, ThreeDecimals, Spaced, Contains, Consecutive, AllSpaceFree, ToUpper, TrimSpace;
    var x := ToUpper(TrimSpace(currency));
    CodesSpaceFree();
    ContainsExact(ZeroDecimals(), x);
    ContainsExact(ThreeDecimals(), x);
  }

  /** So a text without a space inside is looked up as a code. */
  lemma ExponentOfCode(currency: string)
    requires SpaceFree(ToUpper(TrimSpace(currency)))
    ensures
      var x := ToUpper(TrimSpace(currency));
      Exponent(currency) == if x in ZeroDecimals() then 0 else if x in ThreeDecimals() then 3 else 2
  {
    hide ZeroDecimals, ThreeDecimals, Spaced, Consecutive, SpaceFree, ToUpper, TrimSpace, Exponent;
    var x := ToUpper(TrimSpace(currency));
    ExponentExact(currency);
    OneCode(ZeroDecimals(), x);
    OneCode(ThreeDecimals(), x);
  }

  method Scale(exp: nat) returns (factor: int)
    requires exp <= 18
    ensures factor == Pow10(exp) && InInt64(factor)
  {
    factor := 1;
    for i := 0 to exp
      invariant factor == Pow10(i)
    {
      factor := factor * 10;
    }
    PowMonotone(exp, 18);
    PowSmall();
  }

  lemma {:induction false} PowMonotone(a: nat, b: nat)
    requires a <= b
    ensures Pow10(a) <= Pow10(b)
    decreases b
  {
    if a < b {
      PowMonotone(a, b - 1);
    }
  }

  lemma PowSmall()
    ensures Pow10(0) == 1 && Pow10(1) == 10 && Pow10(2) == 100 && Pow10(3) == 1000
    ensures Pow10(18) == 1_000_000_000_000_000_000
  {
    assert Pow10(6) == 1_000_000;
    assert Pow10(9) == 1_000_000_000;
    assert Pow10(12) == 1_000_000_000_000;
    assert Pow10(15) == 1_000_000_000_000_000;
  }

  // ---- printing ---------------------------------------------------------

  /** Go's integer division and remainder truncate toward zero. */
  function Quotient(n: int, f: int): int
    requires f > 0
  {
    if n >= 0 then n / f else -(-n / f)
  }

  function Remainder(n: int, f: int): int
    requires f > 0
  {
    n - f * Quotient(n, f)
  }

  function LeftPad(s: string, width: nat): string {
    Zeros(if |s| < width then width - |s| else 0) + s
  }

  /** The `%0*d` verb: the sign comes first and counts toward the width. */
  function Padded(n: int, width: nat): string {
    if n >= 0 then LeftPad(Digits(n), width)
    else "-" + LeftPad(Digits(-n), if width > 0 then width - 1 else 0)
  }

  function Formatted(amount: int, exp: nat): string
    requires InInt64(amount)
  {
    if exp == 0 then FormatInt(amount)
    else
      var n := if amount < 0 then Wrap64(-amount) else amount;
      (if amount < 0 then "-" else "")
      + FormatInt(Quotient(n, Pow10(exp))) + "." + Padded(Remainder(n, Pow10(exp)), exp)
  }

  method FormatAmountMinor(amount: int, currency: string) returns (text: string)
    requires InInt64(amount)
    ensures text == Formatted(amount, Exponent(currency))
  {
    var exp := Exponent(currency);
    if exp == 0 {
      return FormatInt(amount);
    }
    var sign, value := "", amount;
    if value < 0 {
      sign, value := "-", Wrap64(-value);
    }
    var factor := Scale(exp);
    return sign + FormatInt(Quotient(value, factor)) + "." + Padded(Remainder(value, factor), exp);
  }

  // ---- reading ----------------------------------------------------------

  /** The text before and after the first point; nothing after when there is none. */
  function Cut(s: string): (string, string) {
    if s == [] then ("", "")
    else if s[0] == '.' then ("", s[1..])
    else ([s[0]] + Cut(s[1..]).0, Cut(s[1..]).1)
  }

  function SignOf(value: string): int {
    if value != [] && value[0] == '-' then -1 else 1
  }

  function Unsigned(value: string): string {
    if value != [] && (value[0] == '-' || value[0] == '+') then value[1..] else value
  }

  /** The amount in minor units, computed in 64 bits, or nothing for text that is
      no number or has too many decimals. */
  function Assembled(sign: int, whole: string, fraction: string, exp: nat): Option<int> {
    if Utf8Len(fraction) > exp then None
    else
      var units := ParseInt(First2(whole, "0"));
      var minor := ParseInt(First2(fraction + Zeros(exp - Utf8Len(fraction)), "0"));
      if units.None? || minor.None? then None
      else Some(Wrap64(sign * Wrap64(Wrap64(units.value * Pow10(exp)) + minor.value)))
  }

  function Parsed(raw: string, exp: nat): Option<int> {
    var value := TrimSpace(raw);
    if value == "" then Some(0)
    else if exp == 0 then ParseInt(value)
    else var parts := Cut(Unsigned(value)); Assembled(SignOf(value), parts.0, parts.1, exp)
  }

  method ParseAmountToMinor(raw: string, currency: string) returns (minor: Option<int>)
    ensures minor == Parsed(raw, Exponent(currency))
  {
    hide TrimSpace, ToUpper, Cut, Utf8Len, ParseInt, First2, Wrap64, Exponent, InInt64, Pow10;
    var value := TrimSpace(raw);
    if value == "" {
      return Some(0);
    }
    var exp := Exponent(currency);
    if exp == 0 {
      return ParseInt(value);
    }
    var sign, unsigned := 1, value;
    if value[0] == '-' {
      sign, unsigned := -1, value[1..];
    } else if value[0] == '+' {
      unsigned := value[1..];
    }
    var (whole, fraction) := Cut(unsigned);
    if Utf8Len(fraction) > exp {
      return None;
    }
    var units := ParseInt(First2(whole, "0"));
    if units.None? {
      return None;
    }
    var rest := ParseInt(First2(fraction + Zeros(exp - Utf8Len(fraction)), "0"));
    if rest.None? {
      return None;
    }
    var factor := Scale(exp);
    return Some(Wrap64(sign * Wrap64(Wrap64(units.value * factor) + rest.value)));
  }

  // ---- what reading makes of well-formed text ---------------------------

  lemma {:induction false} CutPlain(whole: string)
    requires '.' !in whole
    ensures Cut(whole) == (whole, "")
  {
    if whole != [] {
      CutPlain(whole[1..]);
      assert whole == [whole[0]] + whole[1..];
    }
  }

  lemma {:induction false} CutPoint(whole: string, fraction: string)
    requires '.' !in whole
    ensures Cut(whole + "." + fraction) == (whole, fraction)
  {
    var s := whole + "." + fraction;
    if whole == [] {
      assert s[1..] == fraction;
    } else {
      assert s[1..] == whole[1..] + "." + fraction;
      CutPoint(whole[1..], fraction);
      assert whole == [whole[0]] + whole[1..];
    }
  }

  lemma ParseDigits(s: string)
    requires AllDigits(s)
    ensures ParseInt(First2(s, "0")) == if Value(s) <= MAX_INT64 then Some(Value(s)) else None
  {
  }

  /** Text of the form sign, digits, and perhaps a point and digits. */
  function Written(sign: string, whole: string, point: bool, fraction: string): string {
    sign + whole + if point then "." + fraction else ""
  }

  predicate WellWritten(sign: string, whole: string, point: bool, fraction: string, exp: nat) {
    (sign == "" || sign == "+" || sign == "-") && AllDigits(whole) && AllDigits(fraction)
    && (!point ==> fraction == "") && |fraction| <= exp
  }

  /** The number of minor units such text stands for. */
  function Denoted(sign: string, whole: string, fraction: string, exp: nat): int
    requires AllDigits(whole) && AllDigits(fraction) && |fraction| <= exp
  {
    var magnitude := Value(whole) * Pow10(exp) + Value(fraction) * Pow10(exp - |fraction|);
    if sign == "-" then -magnitude else magnitude
  }

  lemma WrittenTrimmed(sign: string, whole: string, point: bool, fraction: string, exp: nat)
    requires WellWritten(sign, whole, point, fraction, exp)
    ensures TrimSpace(Written(sign, whole, point, fraction)) == Written(sign, whole, point, fraction)
  {
  }

  lemma WrittenSign(sign: string, body: string)
    requires (sign == "" && (body == [] || (body[0] != '-' && body[0] != '+'))) || sign == "+" || sign == "-"
    ensures Unsigned(sign + body) == body && SignOf(sign + body) == if sign == "-" then -1 else 1
  {
  }

  lemma WrittenParts(sign: string, whole: string, point: bool, fraction: string, exp: nat)
    requires WellWritten(sign, whole, point, fraction, exp)
    ensures
      var s := Written(sign, whole, point, fraction);
      TrimSpace(s) == s && SignOf(s) == (if sign == "-" then -1 else 1) && Cut(Unsigned(s)) == (whole, fraction)
  {
    hide TrimSpace, Cut, SignOf, Unsigned;
    WrittenTrimmed(sign, whole, point, fraction, exp);
    var body := whole + if point then "." + fraction else "";
    assert Written(sign, whole, point, fraction) == sign + body;
    assert body != [] ==> body[0] == '.' || IsDigit(body[0]);
    WrittenSign(sign, body);
    assert '.' !in whole;
    if point {
      assert body == whole + "." + fraction;
      CutPoint(whole, fraction);
    } else {
      assert body == whole;
      CutPlain(whole);
    }
  }

  lemma FractionValue(fraction: string, exp: nat)
    requires AllDigits(fraction) && |fraction| <= exp
    ensures AllDigits(fraction + Zeros(exp - |fraction|))
    ensures Value(fraction + Zeros(exp - |fraction|)) == Value(fraction) * Pow10(exp - |fraction|) < Pow10(exp)
  {
    ValueOfConcat(fraction, Zeros(exp - |fraction|));
    ValueOfZeros(exp - |fraction|);
    ValueBound(fraction + Zeros(exp - |fraction|));
  }

  lemma WrapShift(x: int, k: int)
    ensures Wrap64(x + k * 0x1_0000_0000_0000_0000) == Wrap64(x)
  {
  }

  lemma WrapOf(x: int) returns (k: int)
    ensures Wrap64(x) == x + k * 0x1_0000_0000_0000_0000
  {
    k := -((x - MIN_INT64) / 0x1_0000_0000_0000_0000);
  }

  /** Wrapping once at the end is wrapping at every step. */
  lemma WrapSum(sign: int, x: int, y: int)
    requires sign == 1 || sign == -1
    ensures Wrap64(sign * Wrap64(Wrap64(x) + y)) == Wrap64(if sign == 1 then x + y else -(x + y))
  {
    hide Wrap64;
    var k := WrapOf(x);
    WrapShift(x + y, k);
    var m := WrapOf(x + y);
    if sign == 1 {
      WrapShift(x + y, m);
    } else {
      WrapShift(-(x + y), -m);
    }
  }

  lemma AssembledParts(sign: int, whole: string, fraction: string, exp: nat, units: Option<int>, minor: int)
    requires Utf8Len(fraction) == |fraction| <= exp
    requires ParseInt(First2(whole, "0")) == units
    requires ParseInt(First2(fraction + Zeros(exp - |fraction|), "0")) == Some(minor)
    ensures
      Assembled(sign, whole, fraction, exp)
      == if units.None? then None else Some(Wrap64(sign * Wrap64(Wrap64(units.value * Pow10(exp)) + minor)))
  {
    hide Utf8Len, Pow10, First2, ParseInt, Wrap64, Zeros;
  }

  lemma FractionRead(fraction: string, exp: nat)
    requires AllDigits(fraction) && |fraction| <= exp && Pow10(exp) <= MAX_INT64
    ensures Utf8Len(fraction) == |fraction|
    ensures
      ParseInt(First2(fraction + Zeros(exp - |fraction|), "0")) == Some(Value(fraction) * Pow10(exp - |fraction|))
  {
    Utf8LenAscii(fraction);
    hide Utf8Len, Value, Pow10, First2, ParseInt, IsDigit, Zeros;
    FractionValue(fraction, exp);
    ParseDigits(fraction + Zeros(exp - |fraction|));
  }

  lemma DenotedWrapped(sign: string, whole: string, fraction: string, exp: nat)
    requires AllDigits(whole) && AllDigits(fraction) && |fraction| <= exp
    ensures
      var s, minor := if sign == "-" then -1 else 1, Value(fraction) * Pow10(exp - |fraction|);
      Wrap64(s * Wrap64(Wrap64(Value(whole) * Pow10(exp)) + minor)) == Wrap64(Denoted(sign, whole, fraction, exp))
  {
    hide Value, Pow10, Wrap64, AllDigits;
    WrapSum(if sign == "-" then -1 else 1, Value(whole) * Pow10(exp), Value(fraction) * Pow10(exp - |fraction|));
  }

  /** Put together, the parts give the value they stand for, wrapped once. */
  lemma AssembledExact(sign: string, whole: string, fraction: string, exp: nat)
    requires AllDigits(whole) && AllDigits(fraction) && |fraction| <= exp && Pow10(exp) <= MAX_INT64
    ensures
      Assembled(if sign == "-" then -1 else 1, whole, fraction, exp)
      == if Value(whole) <= MAX_INT64 then Some(Wrap64(Denoted(sign, whole, fraction, exp))) else None
  {
    hide *;
    FractionRead(fraction, exp);
    ParseDigits(whole);
    var s := if sign == "-" then -1 else 1;
    var units := if Value(whole) <= MAX_INT64 then Some(Value(whole)) else None;
    var minor := Value(fraction) * Pow10(exp - |fraction|);
    AssembledParts(s, whole, fraction, exp, units, minor);
    DenotedWrapped(sign, whole, fraction, exp);
  }

  /** Well-written text is read exactly, as far as 64 bits go: the result is the value
      the text stands for precisely when that value fits, and the only error is a whole
      part too large to hold. */
  lemma ParsedExact(sign: string, whole: string, point: bool, fraction: string, exp: nat)
    requires exp == 2 || exp == 3
    requires WellWritten(sign, whole, point, fraction, exp)
    ensures
      var parsed := Parsed(Written(sign, whole, point, fraction), exp);
      var value := Denoted(sign, whole, fraction, exp);
      parsed == (if Value(whole) <= MAX_INT64 then Some(Wrap64(value)) else None)
      && (parsed == Some(value) <==> InInt64(value))
  {
    var s := Written(sign, whole, point, fraction);
    PowSmall();
    EmptyValue();
    hide Cut, TrimSpace, Value, Pow10, Unsigned, SignOf, Assembled;
    WrittenParts(sign, whole, point, fraction, exp);
    DenotedBounds(sign, whole, fraction, exp);
    AssembledExact(sign, whole, fraction, exp);
    if s == "" {
      assert whole == "" && fraction == "";
    }
  }

  lemma EmptyValue()
    ensures Value("") == 0
  {
  }

  lemma DenotedBounds(sign: string, whole: string, fraction: string, exp: nat)
    requires AllDigits(whole) && AllDigits(fraction) && |fraction| <= exp
    ensures InInt64(Denoted(sign, whole, fraction, exp)) ==> Value(whole) <= MAX_INT64 + 1
    ensures exp >= 1 && InInt64(Denoted(sign, whole, fraction, exp)) ==> Value(whole) <= MAX_INT64
  {
    assert exp >= 1 ==> Pow10(exp) >= 10;
    hide Value, Pow10;
    Products(Value(whole), Pow10(exp), if exp >= 1 then 10 else 1);
    Products(Value(fraction), Pow10(exp - |fraction|), 0);
  }

  lemma Products(w: nat, p: nat, k: nat)
    requires p >= k
    ensures w * p >= w * k
  {
  }

  /** Without minor units there is no point to read, and a bare sign is refused. */
  lemma ParsedWhole(sign: string, whole: string)
    requires WellWritten(sign, whole, false, "", 0)
    ensures
      var value := Denoted(sign, whole, "", 0);
      Parsed(sign + whole, 0)
      == if sign + whole == "" then Some(0) else if whole != "" && InInt64(value) then Some(value) else None
  {
    assert Value("") == 0 && Pow10(0) == 1;
    WrittenTrimmed(sign, whole, false, "", 0);
    assert Written(sign, whole, false, "") == sign + whole;
    hide TrimSpace, Value, Pow10, Assembled, Cut, Unsigned, SignOf, ParseInt;
    ParseSigned(sign, whole);
  }

  lemma ParseSigned(sign: string, whole: string)
    requires (sign == "" || sign == "+" || sign == "-") && AllDigits(whole)
    ensures
      var value: int := if sign == "-" then -(Value(whole) as int) else Value(whole);
      ParseInt(sign + whole) == if whole != "" && InInt64(value) then Some(value) else None
  {
    hide Value;
    var s := sign + whole;
    if sign == "" {
      assert s == whole;
      assert whole != "" ==> IsDigit(whole[0]);
    } else {
      assert s[1..] == whole && s[0] == sign[0];
    }
  }

  // ---- round trip -------------------------------------------------------

  lemma PaddedFraction(r: nat, exp: nat)
    requires r < Pow10(exp) && exp >= 1
    ensures var s := Padded(r, exp); AllDigits(s) && |s| == exp && Value(s) == r
  {
    hide Value, Pow10, Digits;
    DigitsBound(r, exp);
    ValueOfDigits(r);
    ValueOfZeros(exp - |Digits(r)|);
    ValueOfConcat(Zeros(exp - |Digits(r)|), Digits(r));
  }

  lemma Division(n: nat, p: nat)
    requires p > 0
    ensures Quotient(n, p) >= 0 && 0 <= Remainder(n, p) < p
    ensures Quotient(n, p) * p + Remainder(n, p) == n
  {
  }

  lemma FormattedWritten(amount: int, exp: nat, q: nat, r: nat)
    requires InInt64(amount) && amount != MIN_INT64 && exp >= 1
    requires
      var n := if amount < 0 then -amount else amount;
      q == Quotient(n, Pow10(exp)) && r == Remainder(n, Pow10(exp))
    ensures Formatted(amount, exp) == Written(if amount < 0 then "-" else "", Digits(q), true, Padded(r, exp))
  {
    hide Pow10, Digits, Padded, Quotient, Remainder, Wrap64;
    var sign := if amount < 0 then "-" else "";
    assert Formatted(amount, exp) == sign + Digits(q) + "." + Padded(r, exp);
  }

  lemma DenotedParts(sign: string, n: int, q: nat, r: nat, exp: nat)
    requires r < Pow10(exp) && exp >= 1 && q * Pow10(exp) + r == n && (sign == "" || sign == "-")
    ensures WellWritten(sign, Digits(q), true, Padded(r, exp), exp)
    ensures Denoted(sign, Digits(q), Padded(r, exp), exp) == if sign == "-" then -n else n
  {
    assert Pow10(0) == 1;
    hide Pow10, Digits, Padded, Value;
    PaddedFraction(r, exp);
    ValueOfDigits(q);
  }

  lemma PrintedParts(amount: int, exp: nat) returns (sign: string, q: nat, r: nat)
    requires InInt64(amount) && amount != MIN_INT64 && exp >= 1
    ensures Formatted(amount, exp) == Written(sign, Digits(q), true, Padded(r, exp))
    ensures WellWritten(sign, Digits(q), true, Padded(r, exp), exp)
    ensures Denoted(sign, Digits(q), Padded(r, exp), exp) == amount
  {
    var n := if amount < 0 then -amount else amount;
    Division(n, Pow10(exp));
    hide Pow10, Digits, Padded, Quotient, Remainder, Formatted, Written, Denoted, WellWritten;
    sign, q, r := if amount < 0 then "-" else "", Quotient(n, Pow10(exp)), Remainder(n, Pow10(exp));
    FormattedWritten(amount, exp, q, r);
    DenotedParts(sign, n, q, r, exp);
  }

  lemma RoundTripOrdinary(amount: int, exp: nat)
    requires InInt64(amount) && amount != MIN_INT64 && (exp == 2 || exp == 3)
    ensures Parsed(Formatted(amount, exp), exp) == Some(amount)
  {
    var sign, q, r := PrintedParts(amount, exp);
    hide *;
    ParsedExact(sign, Digits(q), true, Padded(r, exp), exp);
  }

  /** The least amount prints with a sign in front of each part. */
  lemma LeastWritten(exp: nat)
    requires exp == 2 || exp == 3
    ensures
      Formatted(MIN_INT64, exp)
      == "-" + (if exp == 2 then FormatInt(-92233720368547758) + ".-8" else FormatInt(-9223372036854775) + ".-808")
  {
    PowSmall();
    hide Pow10, FormatInt, Padded, Wrap64;
    assert Wrap64(-MIN_INT64) == MIN_INT64 by {
      WrapShift(MIN_INT64, 1);
    }
    LeastFraction();
  }

  lemma LeastFraction()
    ensures Padded(-8, 2) == "-8" && Padded(-808, 3) == "-808"
  {
  }

  lemma FormatPlain(q: int)
    ensures var s := FormatInt(q); forall i :: 0 <= i < |s| ==> s[i] == '-' || IsDigit(s[i])
  {
  }

  lemma LeastRead(q: int, fraction: string, exp: nat)
    requires q < 0 && (fraction == "-8" || fraction == "-808") && exp >= 1
    ensures
      Parsed("-" + (FormatInt(q) + "." + fraction), exp) == Assembled(-1, FormatInt(q), fraction, exp)
  {
    hide TrimSpace, Cut, FormatInt, Assembled;
    FormatPlain(q);
    var body := FormatInt(q) + "." + fraction;
    var s := "-" + body;
    assert s[|s| - 1] == fraction[|fraction| - 1] == '8';
    TrimSpaceIdle(s);
    WrittenSign("-", body);
    assert '.' !in FormatInt(q);
    CutPoint(FormatInt(q), fraction);
  }

  lemma LeastParts(q: int)
    requires q < 0 && InInt64(q)
    ensures ParseInt(First2(FormatInt(q), "0")) == Some(q)
    ensures ParseInt(First2("-8", "0")) == Some(-8)
  {
    var s := FormatInt(q);
    assert s[0] == '-' && IsDigit(s[|s| - 1]);
    TrimSpaceIdle(s);
    ParseOfFormat(q);
    TrimSpaceIdle("-8");
    ParseOfFormat(-8);
    assert Digits(8) == "8";
  }

  lemma LeastWraps(q: int)
    requires q == -92233720368547758
    ensures InInt64(q) && Wrap64(-1 * Wrap64(Wrap64(q * Pow10(2)) + -8)) == MIN_INT64
  {
  }

  lemma LeastKept(q: int)
    requires q < 0 && InInt64(q) && Wrap64(-1 * Wrap64(Wrap64(q * Pow10(2)) + -8)) == MIN_INT64
    ensures Assembled(-1, FormatInt(q), "-8", 2) == Some(MIN_INT64)
  {
    assert Utf8Len("-8") == 2;
    hide *;
    LeastParts(q);
    assert "-8" + Zeros(0) == "-8";
    AssembledParts(-1, FormatInt(q), "-8", 2, Some(q), -8);
  }

  lemma LeastLost(whole: string)
    ensures Assembled(-1, whole, "-808", 3) == None
  {
  }

  lemma LeastAmount(exp: nat)
    requires exp == 2 || exp == 3
    ensures Parsed(Formatted(MIN_INT64, exp), exp) == if exp == 2 then Some(MIN_INT64) else None
  {
    hide *;
    LeastWritten(exp);
    if exp == 2 {
      var q := -92233720368547758;
      assert "-" + (FormatInt(q) + ".-8") == "-" + (FormatInt(q) + "." + "-8");
      LeastRead(q, "-8", 2);
      LeastWraps(q);
      LeastKept(q);
    } else {
      var q := -9223372036854775;
      assert "-" + (FormatInt(q) + ".-808") == "-" + (FormatInt(q) + "." + "-808");
      LeastRead(q, "-808", 3);
      LeastLost(FormatInt(q));
    }
  }

  /** The amount that is lost, in Kuwaiti dinars. */
  lemma LeastDinarsLost()
    ensures Exponent("KWD") == 3 && Parsed(Formatted(MIN_INT64, Exponent("KWD")), Exponent("KWD")) == None
  {
    hide *;
    DinarCode();
    DinarListed();
    ExponentOfCode("KWD");
    LeastAmount(3);
  }

  lemma DinarCode()
    ensures ToUpper(TrimSpace("KWD")) == "KWD" && SpaceFree("KWD")
  {
    TrimSpaceIdle("KWD");
    hide TrimSpace;
    assert ToUpper("KWD") == "KWD";
  }

  lemma DinarListed()
    ensures "KWD" !in ZeroDecimals() && "KWD" in ThreeDecimals()
  {
    assert ThreeDecimals()[3] == "KWD";
  }

  lemma RoundTripPlain(amount: int)
    requires InInt64(amount)
    ensures Parsed(FormatInt(amount), 0) == Some(amount)
  {
    var s := FormatInt(amount);
    FormatPlain(amount);
    ParseOfFormat(amount);
    hide FormatInt, ParseInt, TrimSpace;
    TrimSpaceIdle(s);
  }

  /** Reading what was printed gives the amount back, for every 64-bit amount in every
      currency, save one: the least amount in a currency with three decimals. */
  lemma RoundTripExact(amount: int, currency: string)
    requires InInt64(amount)
    ensures
      var exp := Exponent(currency);
      Parsed(Formatted(amount, exp), exp) == Some(amount) <==> !(exp == 3 && amount == MIN_INT64)
  {
    var exp := Exponent(currency);
    hide Parsed, Exponent, FormatInt;
    if exp == 0 {
      RoundTripPlain(amount);
    } else if amount == MIN_INT64 {
      LeastAmount(exp);
    } else {
      RoundTripOrdinary(amount, exp);
    }
  }

  // ---- what is printed, and what is refused -----------------------------

  /** The printed form: a minus sign just for a negative amount, a whole part without
      leading zeros, and exactly as many decimals as the currency has; together they
      stand for the amount. The least amount is printed otherwise, with a sign before
      each part, where there are decimals. */
  lemma PrintedExact(amount: int, exp: nat) returns (sign: string, whole: string, fraction: string)
    requires InInt64(amount) && (amount != MIN_INT64 || exp == 0)
    ensures Formatted(amount, exp) == Written(sign, whole, exp > 0, fraction)
    ensures sign == if amount < 0 then "-" else ""
    ensures WellWritten(sign, whole, exp > 0, fraction, exp) && |fraction| == exp
    ensures whole != "" && (whole[0] == '0' ==> whole == "0")
    ensures Denoted(sign, whole, fraction, exp) == amount
  {
    var n := if amount < 0 then -amount else amount;
    sign := if amount < 0 then "-" else "";
    if exp == 0 {
      whole, fraction := Digits(n), "";
      PlainParts(n);
      ValueOfDigits(n);
    } else {
      Division(n, Pow10(exp));
      hide Pow10, Digits, Padded, Quotient, Remainder, Formatted, Written, Denoted, WellWritten;
      var q, r: nat := Quotient(n, Pow10(exp)), Remainder(n, Pow10(exp));
      FormattedWritten(amount, exp, q, r);
      DenotedParts(sign, n, q, r, exp);
      PaddedFraction(r, exp);
      PlainParts(q);
      whole, fraction := Digits(q), Padded(r, exp);
    }
  }

  lemma PlainParts(q: nat)
    ensures Digits(q)[0] == '0' ==> Digits(q) == "0"
  {
    DigitsCanonical(q);
  }

  /** Text that may stand in a number. */
  predicate Numeric(s: string) {
    forall i :: 0 <= i < |s| ==> IsSpace(s[i]) || IsDigit(s[i]) || s[i] == '-' || s[i] == '+'
  }

  lemma ReadNumeric(s: string)
    requires ParseInt(First2(s, "0")).Some?
    ensures Numeric(s)
  {
    hide TrimSpace;
    var left, right := TrimSpaceExact(s);
    assert s == left + TrimSpace(s) + right;
  }

  lemma {:induction false} CutExact(s: string)
    ensures '.' !in Cut(s).0
    ensures s == Cut(s).0 + (if '.' in s then "." + Cut(s).1 else "") && ('.' !in s ==> Cut(s).1 == "")
  {
    if s != [] {
      CutExact(s[1..]);
      assert s == [s[0]] + s[1..];
    }
  }

  /** Such text on both sides of a point. */
  ghost predicate PointedNumber(s: string) {
    exists before, after :: Numeric(before) && Numeric(after) && s == before + "." + after
  }

  /** Text that is read holds nothing but digits, signs, space, and, where the currency
      has decimals, at most one point. */
  lemma ReadsNumbersOnly(raw: string, exp: nat)
    requires Parsed(raw, exp).Some?
    ensures Numeric(raw) || (exp > 0 && PointedNumber(raw))
  {
    var left, right := TrimSpaceExact(raw);
    SpaceNumeric(left);
    SpaceNumeric(right);
    hide TrimSpace, Cut, ParseInt, Assembled, Numeric, PointedNumber, Unsigned;
    var value := TrimSpace(raw);
    if value == "" {
      assert raw == left + right;
      NumericConcat(left, right);
    } else {
      if exp == 0 {
        ParsedNumeric(value);
      } else {
        var unsigned := Unsigned(value);
        PartsNumeric(SignOf(value), Cut(unsigned).0, Cut(unsigned).1, exp);
        SignNumeric(value);
      }
      Surrounded(left, value, right);
    }
  }

  lemma Surrounded(left: string, value: string, right: string)
    requires Numeric(left) && Numeric(right)
    ensures Numeric(value) ==> Numeric(left + value + right)
    ensures PointedNumber(value) ==> PointedNumber(left + value + right)
  {
    hide Numeric;
    if Numeric(value) {
      NumericConcat(left, value);
      NumericConcat(left + value, right);
    }
    if PointedNumber(value) {
      var before, after :| Numeric(before) && Numeric(after) && value == before + "." + after;
      NumericConcat(left, before);
      NumericConcat(after, right);
      assert left + value + right == (left + before) + "." + (after + right);
    }
  }

  lemma SpaceNumeric(s: string)
    requires forall c :: c in s ==> IsSpace(c)
    ensures Numeric(s)
  {
  }

  lemma NumericConcat(s: string, more: string)
    ensures Numeric(s + more) <==> Numeric(s) && Numeric(more)
  {
    assert forall i :: 0 <= i < |s| ==> (s + more)[i] == s[i];
    assert forall i :: 0 <= i < |more| ==> (s + more)[|s| + i] == more[i];
  }

  /** An optional sign, and around a point or not, what both parts allow. */
  lemma SignNumeric(value: string)
    requires Numeric(Cut(Unsigned(value)).0) && Numeric(Cut(Unsigned(value)).1)
    ensures Numeric(value) || PointedNumber(value)
  {
    hide Numeric, Cut, Unsigned, PointedNumber;
    var unsigned := Unsigned(value);
    CutExact(unsigned);
    var sign := SignBefore(value);
    EmptyNumeric();
    Surrounded(sign, unsigned, "");
    assert sign + unsigned + "" == value;
    PointOrNot(unsigned, Cut(unsigned).0, Cut(unsigned).1);
  }

  lemma SignBefore(value: string) returns (sign: string)
    ensures value == sign + Unsigned(value) && Numeric(sign)
  {
    sign := value[..|value| - |Unsigned(value)|];
  }

  lemma EmptyNumeric()
    ensures Numeric("")
  {
  }

  lemma PointOrNot(s: string, whole: string, fraction: string)
    requires Numeric(whole) && Numeric(fraction)
    requires s == whole || s == whole + "." + fraction
    ensures Numeric(s) || PointedNumber(s)
  {
    hide Numeric;
  }

  lemma PartsNumeric(sign: int, whole: string, fraction: string, exp: nat)
    requires Assembled(sign, whole, fraction, exp).Some?
    ensures Numeric(whole) && Numeric(fraction)
  {
    hide First2, ParseInt, Numeric, Wrap64, Pow10, Utf8Len, Zeros;
    ReadNumeric(whole);
    ReadNumeric(fraction + Zeros(exp - Utf8Len(fraction)));
    NumericConcat(fraction, Zeros(exp - Utf8Len(fraction)));
  }

  lemma ParsedNumeric(s: string)
    requires ParseInt(s).Some?
    ensures Numeric(s)
  {
  }

  /** Digits after the point beyond the currency's decimals are refused, even zeros. */
  lemma TooPreciseRefused(sign: string, whole: string, fraction: string, exp: nat)
    requires exp > 0 && WellWritten(sign, whole, true, fraction, |fraction|) && |fraction| > exp
    ensures Parsed(Written(sign, whole, true, fraction), exp) == None
  {
    hide TrimSpace, Cut, SignOf, Unsigned, Utf8Len;
    WrittenParts(sign, whole, true, fraction, |fraction|);
    Utf8LenAscii(fraction);
  }
}
