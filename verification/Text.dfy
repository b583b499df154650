/** Go strings as sequences of Unicode scalar values, and the few library
    functions over them that decide something here: trimming, casing, integer
    printing and parsing, joining. */
module Text {
  import opened Wrappers

  const MAX_INT64: int := 0x7FFF_FFFF_FFFF_FFFF
  const MIN_INT64: int := -0x8000_0000_0000_0000

  predicate InInt64(x: int) {
    MIN_INT64 <= x <= MAX_INT64
  }

  /** Two's complement truncation to 64 bits. */
  function Wrap64(x: int): (r: int)
    ensures InInt64(r)
    ensures InInt64(x) ==> r == x
  {
    (x - MIN_INT64) % 0x1_0000_0000_0000_0000 + MIN_INT64
  }

  // ---- trimming and casing ----------------------------------------------

  /** The Unicode White_Space property. */
  predicate IsSpace(c: char) {
    c == ' ' || '\U{9}' <= c <= '\U{D}' || c == '\U{85}' || c == '\U{A0}' || c == '\U{1680}'
    || '\U{2000}' <= c <= '\U{200A}' || c == '\U{2028}' || c == '\U{2029}' || c == '\U{202F}'
    || c == '\U{205F}' || c == '\U{3000}'
  }

  function TrimLeft(s: string): string {
    if s != [] && IsSpace(s[0]) then TrimLeft(s[1..]) else s
  }

  function TrimRight(s: string): string {
    if s != [] && IsSpace(s[|s| - 1]) then TrimRight(s[..|s| - 1]) else s
  }

  function TrimSpace(s: string): string {
    TrimRight(TrimLeft(s))
  }

  lemma TrimSpaceIdle(s: string)
    requires s == [] || (!IsSpace(s[0]) && !IsSpace(s[|s| - 1]))
    ensures TrimSpace(s) == s
  {
  }

  /** Trimming takes the space off both ends, and nothing else. */
  lemma {:induction false} TrimSpaceExact(s: string) returns (left: string, right: string)
    ensures s == left + TrimSpace(s) + right
    ensures forall c :: c in left || c in right ==> IsSpace(c)
    ensures TrimSpace(s) == [] || (!IsSpace(TrimSpace(s)[0]) && !IsSpace(TrimSpace(s)[|TrimSpace(s)| - 1]))
  {
    left := TrimLeftExact(s);
    right := TrimRightExact(TrimLeft(s));
  }

  lemma {:induction false} TrimLeftExact(s: string) returns (left: string)
    ensures s == left + TrimLeft(s) && forall c :: c in left ==> IsSpace(c)
    ensures TrimLeft(s) == [] || !IsSpace(TrimLeft(s)[0])
  {
    left := "";
    if s != [] && IsSpace(s[0]) {
      left := TrimLeftExact(s[1..]);
      left := [s[0]] + left;
    }
  }

  lemma {:induction false} TrimRightExact(s: string) returns (right: string)
    ensures s == TrimRight(s) + right && forall c :: c in right ==> IsSpace(c)
    ensures TrimRight(s) == [] || !IsSpace(TrimRight(s)[|TrimRight(s)| - 1])
  {
    right := "";
    if s != [] && IsSpace(s[|s| - 1]) {
      right := TrimRightExact(s[..|s| - 1]);
      right := right + [s[|s| - 1]];
    }
  }

  /** Upper-casing on the characters whose upper case is an ASCII letter. */
  function UpperChar(c: char): char {
    if 'a' <= c <= 'z' then (c as int - 32) as char
    else if c == '\U{131}' then 'I'
    else if c == '\U{17F}' then 'S'
    else c
  }

  function ToUpper(s: string): (r: string)
    ensures |r| == |s|
    ensures forall i :: 0 <= i < |s| ==> r[i] == UpperChar(s[i])
  {
    seq(|s|, i requires 0 <= i < |s| => UpperChar(s[i]))
  }

  /** Simple case folding on the characters that fold to an ASCII letter. */
  function FoldChar(c: char): char {
    if 'a' <= c <= 'z' then (c as int - 32) as char
    else if c == '\U{17F}' then 'S'
    else if c == '\U{212A}' then 'K'
    else c
  }

  predicate EqualFold(a: string, b: string) {
    |a| == |b| && forall i :: 0 <= i < |a| ==> FoldChar(a[i]) == FoldChar(b[i])
  }

  /** On ASCII text, folding alike is having one upper case. */
  lemma FoldsLikeUpper(a: string, b: string)
    requires forall i :: 0 <= i < |a| ==> a[i] as int < 0x80
    requires forall i :: 0 <= i < |b| ==> b[i] as int < 0x80
    ensures EqualFold(a, b) <==> ToUpper(a) == ToUpper(b)
  {
    forall i | 0 <= i < |a| && |a| == |b|
      ensures FoldChar(a[i]) == FoldChar(b[i]) <==> ToUpper(a)[i] == ToUpper(b)[i]
    {
    }
  }

  /** The first value that is not blank, trimmed; blank when none is. */
  function First2(a: string, b: string): string {
    if TrimSpace(a) != [] then TrimSpace(a) else TrimSpace(b)
  }

  /** Bytes a string takes in UTF-8, which is what Go's `len` counts. */
  function Utf8Len(s: string): (n: nat)
    ensures n >= |s|
  {
    if s == [] then 0
    else
      var c := s[0] as int;
      (if c < 0x80 then 1 else if c < 0x800 then 2 else if c < 0x1_0000 then 3 else 4) + Utf8Len(s[1..])
  }

  lemma Utf8LenAscii(s: string)
    requires forall i :: 0 <= i < |s| ==> s[i] as int < 0x80
    ensures Utf8Len(s) == |s|
  {
  }

  // ---- digit strings ----------------------------------------------------

  predicate IsDigit(c: char) {
    '0' <= c <= '9'
  }

  predicate AllDigits(s: string) {
    forall i :: 0 <= i < |s| ==> IsDigit(s[i])
  }

  function Digit(n: nat): (c: char)
    requires n < 10
    ensures IsDigit(c) && DigitValue(c) == n
  {
    ('0' as int + n) as char
  }

  function DigitValue(c: char): nat
    requires IsDigit(c)
  {
    c as int - '0' as int
  }

  /** The number a string of digits denotes; the empty string denotes zero. */
  function Value(s: string): nat
    requires AllDigits(s)
  {
    if s == [] then 0 else 10 * Value(s[..|s| - 1]) + DigitValue(s[|s| - 1])
  }

  function Digits(n: nat): (s: string)
    ensures s != [] && AllDigits(s)
  {
    if n < 10 then [Digit(n)] else Digits(n / 10) + [Digit(n % 10)]
  }

  function Pow10(k: nat): (r: nat)
    ensures r >= 1
  {
    if k == 0 then 1 else 10 * Pow10(k - 1)
  }

  function Zeros(k: nat): (s: string)
    ensures |s| == k && AllDigits(s)
    ensures forall i :: 0 <= i < k ==> s[i] == '0'
  {
    seq(k, _ => '0')
  }

  lemma {:induction false} ValueOfDigits(n: nat)
    ensures Value(Digits(n)) == n
  {
    if n >= 10 {
      ValueOfDigits(n / 10);
      assert Digits(n)[..|Digits(n)| - 1] == Digits(n / 10);
    }
  }

  lemma Distribute(a: nat, p: nat, v: nat, d: nat)
    ensures 10 * (a * p + v) + d == a * (10 * p) + (10 * v + d)
  {
  }

  lemma {:induction false} ValueOfConcat(a: string, b: string)
    requires AllDigits(a) && AllDigits(b)
    ensures AllDigits(a + b)
    ensures Value(a + b) == Value(a) * Pow10(|b|) + Value(b)
  {
    if b == [] {
      assert a + b == a;
    } else {
      var short := b[..|b| - 1];
      ValueOfConcat(a, short);
      assert (a + b)[..|a + b| - 1] == a + short;
      assert (a + b)[|a + b| - 1] == b[|b| - 1];
      Distribute(Value(a), Pow10(|short|), Value(short), DigitValue(b[|b| - 1]));
    }
  }

  lemma {:induction false} ValueOfZeros(k: nat)
    ensures Value(Zeros(k)) == 0
  {
    if k > 0 {
      ValueOfZeros(k - 1);
      assert Zeros(k)[..k - 1] == Zeros(k - 1);
    }
  }

  lemma {:induction false} ValueBound(s: string)
    requires AllDigits(s)
    ensures Value(s) < Pow10(|s|)
  {
    if s != [] {
      ValueBound(s[..|s| - 1]);
    }
  }

  lemma {:induction false} DigitsBound(n: nat, k: nat)
    requires n < Pow10(k) && k >= 1
    ensures |Digits(n)| <= k
  {
    if n >= 10 {
      assert Pow10(1) == 10;
      DigitsBound(n / 10, k - 1);
    }
  }

  /** Digits are written without a leading zero, but for zero itself. */
  lemma {:induction false} DigitsCanonical(n: nat)
    ensures n > 0 ==> Digits(n)[0] != '0'
    ensures |Digits(n)| == 1 <==> n < 10
  {
    if n >= 10 {
      DigitsCanonical(n / 10);
    }
  }

  // ---- signed integers --------------------------------------------------

  function FormatInt(n: int): (s: string)
    ensures s != []
  {
    if n < 0 then "-" + Digits(-n) else Digits(n)
  }

  /** Base ten with an optional sign; refused when not a number or out of range. */
  function ParseInt(s: string): (r: Option<int>)
    ensures r.Some? ==> InInt64(r.value)
  {
    var signed := s != [] && (s[0] == '-' || s[0] == '+');
    var body := if signed then s[1..] else s;
    if body == [] || !AllDigits(body) then None
    else
      var n: int := if signed && s[0] == '-' then -(Value(body) as int) else Value(body);
      if InInt64(n) then Some(n) else None
  }

  lemma ParseOfFormat(n: int)
    requires InInt64(n)
    ensures ParseInt(FormatInt(n)) == Some(n)
  {
    ValueOfDigits(if n < 0 then -n else n);
    if n < 0 {
      assert FormatInt(n)[1..] == Digits(-n);
    } else {
      assert IsDigit(Digits(n)[0]);
    }
  }

  lemma FormatIntInjective(a: int, b: int)
    requires FormatInt(a) == FormatInt(b)
    ensures a == b
  {
    ValueOfDigits(if a < 0 then -a else a);
    ValueOfDigits(if b < 0 then -b else b);
    assert a < 0 ==> FormatInt(a)[1..] == Digits(-a);
    assert b < 0 ==> FormatInt(b)[1..] == Digits(-b);
    assert a >= 0 ==> IsDigit(FormatInt(a)[0]);
    assert b >= 0 ==> IsDigit(FormatInt(b)[0]);
  }

  // ---- joining ----------------------------------------------------------

  function Join(fields: seq<string>, separator: char): string {
    if fields == [] then []
    else if |fields| == 1 then fields[0]
    else fields[0] + [separator] + Join(fields[1..], separator)
  }

  predicate Free(fields: seq<string>, separator: char) {
    forall i :: 0 <= i < |fields| ==> separator !in fields[i]
  }

  /** Joining keeps apart every two lists of as many fields, as long as no field
      holds the separator. */
  lemma {:induction false} JoinInjective(a: seq<string>, b: seq<string>, separator: char)
    requires |a| == |b| && Free(a, separator) && Free(b, separator)
    requires Join(a, separator) == Join(b, separator)
    ensures a == b
  {
    if |a| > 1 {
      var ra, rb := Join(a[1..], separator), Join(b[1..], separator);
      var ja, jb := a[0] + [separator] + ra, b[0] + [separator] + rb;
      assert ja == jb;
      assert ja[|a[0]|] == separator && jb[|b[0]|] == separator;
      assert forall i :: 0 <= i < |a[0]| ==> ja[i] == a[0][i] && ja[i] in a[0];
      assert forall i :: 0 <= i < |b[0]| ==> jb[i] == b[0][i] && jb[i] in b[0];
      assert |a[0]| == |b[0]|;
      assert a[0] == ja[..|a[0]|] == jb[..|a[0]|] == b[0];
      assert ra == ja[|a[0]| + 1..] == jb[|a[0]| + 1..] == rb;
      JoinInjective(a[1..], b[1..], separator);
      assert a == [a[0]] + a[1..] && b == [b[0]] + b[1..];
    } else if |a| == 1 {
      assert a == [a[0]] && b == [b[0]];
    }
  }

  function Occurrences(s: string, c: char): nat {
    if s == [] then 0 else Occurrences(s[..|s| - 1], c) + if s[|s| - 1] == c then 1 else 0
  }

  lemma {:induction false} OccurrencesOfConcat(a: string, b: string, c: char)
    ensures Occurrences(a + b, c) == Occurrences(a, c) + Occurrences(b, c)
  {
    if b == [] {
      assert a + b == a;
    } else {
      OccurrencesOfConcat(a, b[..|b| - 1], c);
      assert (a + b)[..|a + b| - 1] == a + b[..|b| - 1];
    }
  }

  lemma {:induction false} NoOccurrence(s: string, c: char)
    ensures Occurrences(s, c) == 0 <==> c !in s
  {
    if s != [] {
      NoOccurrence(s[..|s| - 1], c);
      assert s == s[..|s| - 1] + [s[|s| - 1]];
    }
  }

  /** A join holds one separator between each two fields, and no more exactly when no
      field holds one. */
  lemma {:induction false} SeparatorsInJoin(fields: seq<string>, separator: char)
    requires fields != []
    ensures Occurrences(Join(fields, separator), separator) >= |fields| - 1
    ensures Occurrences(Join(fields, separator), separator) == |fields| - 1 <==> Free(fields, separator)
  {
    NoOccurrence(fields[0], separator);
    if |fields| == 1 {
      assert Free(fields, separator) <==> separator !in fields[0];
    } else {
      SeparatorsInJoin(fields[1..], separator);
      var rest := Join(fields[1..], separator);
      OccurrencesOfConcat(fields[0] + [separator], rest, separator);
      OccurrencesOfConcat(fields[0], [separator], separator);
      assert [separator][..0] == [];
      FreeSplit(fields, separator);
    }
  }

  lemma FreeSplit(fields: seq<string>, separator: char)
    requires fields != []
    ensures Free(fields, separator) <==> separator !in fields[0] && Free(fields[1..], separator)
  {
    forall i | 0 < i < |fields|
      ensures fields[i] == fields[1..][i - 1]
    {
    }
  }

  /** One list without the separator is enough to keep it apart from every other list of
      as many fields. */
  lemma JoinInjectiveOneSided(a: seq<string>, b: seq<string>, separator: char)
    requires |a| == |b| && Free(a, separator) && Join(a, separator) == Join(b, separator)
    ensures a == b
  {
    if a != [] {
      SeparatorsInJoin(a, separator);
      SeparatorsInJoin(b, separator);
      JoinInjective(a, b, separator);
    }
  }

  /** A separator inside a field joins just like one between two fields. */
  lemma {:induction false} JoinPiece(before: seq<string>, x: string, y: string, after: seq<string>, separator: char)
    ensures Join(before + [x, y] + after, separator) == Join(before + [x + [separator] + y] + after, separator)
  {
    var split, whole := before + [x, y] + after, before + [x + [separator] + y] + after;
    if before == [] {
      assert split[1..] == [y] + after && split[1..][1..] == after && whole[1..] == after;
    } else {
      JoinPiece(before[1..], x, y, after, separator);
      assert split[1..] == before[1..] + [x, y] + after;
      assert whole[1..] == before[1..] + [x + [separator] + y] + after;
    }
  }
}
