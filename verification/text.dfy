/** String helpers shared by the panels: the camelCase label rule `key.replace(/([A-Z])/g, ' $1')`,
    `String.prototype.trim`, `String.prototype.includes`, integer rendering for template strings,
    `parseFloat` on a leading numeric prefix, and `Number.prototype.toFixed(1)`. */
module Text {
  import opened Wrappers

  predicate IsUpper(c: char) {
    'A' <= c <= 'Z'
  }

  predicate IsDigit(c: char) {
    '0' <= c <= '9'
  }

  /** The characters `trim` and `parseFloat` treat as white space (WhiteSpace and LineTerminator
      of ECMA-262). */
  predicate IsSpace(c: char) {
    if c <= ' ' then
      c == '\t' || c == '\n' || c == '\U{B}' || c == '\U{C}' || c == '\r' || c == ' '
    else
      '\U{A0}' <= c
      && (c == '\U{A0}' || c == '\U{1680}' || ('\U{2000}' <= c <= '\U{200A}')
          || c == '\U{2028}' || c == '\U{2029}' || c == '\U{202F}' || c == '\U{205F}'
          || c == '\U{3000}' || c == '\U{FEFF}')
  }

  function CountUpper(s: string): nat {
    if |s| == 0 then 0 else (if IsUpper(s[0]) then 1 else 0) + CountUpper(s[1..])
  }

  // ---------------------------------------------------------------------------------------------
  // camelCase labels

  /** `s.replace(/([A-Z])/g, ' $1')`: a space is inserted before every ASCII capital. */
  function SpaceBeforeUpper(s: string): (r: string)
    ensures |r| == |s| + CountUpper(s)
    ensures |r| > 0 ==> !IsUpper(r[0])
  {
    if |s| == 0 then ""
    else (if IsUpper(s[0]) then [' ', s[0]] else [s[0]]) + SpaceBeforeUpper(s[1..])
  }

  /** Removes each space that directly precedes a capital: the inverse of `SpaceBeforeUpper`. */
  function JoinBeforeUpper(t: string): string {
    if |t| == 0 then ""
    else if |t| >= 2 && t[0] == ' ' && IsUpper(t[1]) then [t[1]] + JoinBeforeUpper(t[2..])
    else [t[0]] + JoinBeforeUpper(t[1..])
  }

  /** The label rule loses nothing: the key can be read back from its label. */
  lemma {:induction false} SpaceBeforeUpperRoundTrip(s: string)
    ensures JoinBeforeUpper(SpaceBeforeUpper(s)) == s
  {
    if |s| > 0 {
      var rest := SpaceBeforeUpper(s[1..]);
      SpaceBeforeUpperRoundTrip(s[1..]);
      if IsUpper(s[0]) {
        assert SpaceBeforeUpper(s) == [' ', s[0]] + rest;
        assert ([' ', s[0]] + rest)[2..] == rest;
      } else {
        assert SpaceBeforeUpper(s) == [s[0]] + rest;
        assert ([s[0]] + rest)[1..] == rest;
      }
    }
  }

  /** The label rule works character by character. */
  lemma {:induction false} SpaceBeforeUpperAppend(a: string, b: string)
    ensures SpaceBeforeUpper(a + b) == SpaceBeforeUpper(a) + SpaceBeforeUpper(b)
  {
    if |a| > 0 {
      assert (a + b)[1..] == a[1..] + b;
      SpaceBeforeUpperAppend(a[1..], b);
    } else {
      assert a + b == b;
    }
  }

  /** A string without capitals is its own label. */
  lemma {:induction false} SpaceBeforeUpperNoCapitals(s: string)
    requires forall i :: 0 <= i < |s| ==> !IsUpper(s[i])
    ensures SpaceBeforeUpper(s) == s
  {
    if |s| > 0 {
      SpaceBeforeUpperNoCapitals(s[1..]);
      assert [s[0]] + s[1..] == s;
    }
  }

  /** The label rule keeps the last character, and the first one when it is not a capital. */
  lemma {:induction false} SpaceBeforeUpperEnds(s: string)
    requires |s| > 0
    ensures SpaceBeforeUpper(s)[|SpaceBeforeUpper(s)| - 1] == s[|s| - 1]
    ensures !IsUpper(s[0]) ==> SpaceBeforeUpper(s)[0] == s[0]
  {
    var head := if IsUpper(s[0]) then [' ', s[0]] else [s[0]];
    assert SpaceBeforeUpper(s) == head + SpaceBeforeUpper(s[1..]);
    if |s| > 1 {
      SpaceBeforeUpperEnds(s[1..]);
    }
  }

  /** Every capital of a label is preceded by a space. */
  lemma {:induction false} SpaceBeforeEveryUpper(s: string)
    ensures forall i :: 0 <= i < |SpaceBeforeUpper(s)| && IsUpper(SpaceBeforeUpper(s)[i]) ==>
              i > 0 && SpaceBeforeUpper(s)[i - 1] == ' '
  {
    if |s| > 0 {
      SpaceBeforeEveryUpper(s[1..]);
      var head := if IsUpper(s[0]) then [' ', s[0]] else [s[0]];
      var rest := SpaceBeforeUpper(s[1..]);
      assert SpaceBeforeUpper(s) == head + rest;
      forall i | 0 <= i < |head + rest| && IsUpper((head + rest)[i])
        ensures i > 0 && (head + rest)[i - 1] == ' '
      {
        if i >= |head| {
          assert (head + rest)[i] == rest[i - |head|];
          assert i - |head| > 0;
          assert (head + rest)[i - 1] == rest[i - |head| - 1];
        }
      }
    }
  }

  // ---------------------------------------------------------------------------------------------
  // trim

  function TrimStart(s: string): (r: string)
    ensures |r| <= |s|
  {
    if |s| > 0 && IsSpace(s[0]) then TrimStart(s[1..]) else s
  }

  /** Nothing is trimmed from a string that does not start with white space. */
  lemma TrimStartKeeps(s: string)
    requires |s| > 0 && !IsSpace(s[0])
    ensures TrimStart(s) == s
  {
  }

  function TrimEnd(s: string): (r: string)
    ensures |r| <= |s|
  {
    if |s| > 0 && IsSpace(s[|s| - 1]) then TrimEnd(s[..|s| - 1]) else s
  }

  /** What `TrimStart` leaves is a suffix that does not start with white space. */
  lemma {:induction false} TrimStartSuffix(s: string)
    ensures var r := TrimStart(s);
            r == s[|s| - |r|..] && (|r| > 0 ==> !IsSpace(r[0]))
  {
    if |s| > 0 && IsSpace(s[0]) {
      TrimStartSuffix(s[1..]);
      assert s[1..][|s[1..]| - |TrimStart(s[1..])|..] == s[|s| - |TrimStart(s)|..];
    }
  }

  /** What `TrimEnd` leaves is a prefix that does not end with white space. */
  lemma {:induction false} TrimEndPrefix(s: string)
    ensures var r := TrimEnd(s);
            r == s[..|r|] && (|r| > 0 ==> !IsSpace(r[|r| - 1]))
  {
    if |s| > 0 && IsSpace(s[|s| - 1]) {
      TrimEndPrefix(s[..|s| - 1]);
      assert s[..|s| - 1][..|TrimEnd(s)|] == s[..|TrimEnd(s)|];
    }
  }

  /** `String.prototype.trim`. */
  function Trim(s: string): (r: string)
    ensures |r| > 0 ==> !IsSpace(r[0]) && !IsSpace(r[|r| - 1])
    ensures (forall k :: 0 <= k < |s| ==> IsSpace(s[k])) ==> r == ""
  {
    TrimStartSuffix(s);
    TrimEndPrefix(TrimStart(s));
    var t := TrimStart(s);
    assert |t| > 0 ==> t[0] == s[|s| - |t|];
    TrimEnd(TrimStart(s))
  }

  lemma TrimNoOp(s: string)
    requires |s| > 0 ==> !IsSpace(s[0]) && !IsSpace(s[|s| - 1])
    ensures Trim(s) == s
  {
  }

  // ---------------------------------------------------------------------------------------------
  // includes

  predicate StartsWith(s: string, prefix: string) {
    |prefix| <= |s| && s[..|prefix|] == prefix
  }

  /** `s.includes(sub)`. */
  predicate Contains(s: string, sub: string)
    decreases |s|
  {
    StartsWith(s, sub) || (|s| > 0 && Contains(s[1..], sub))
  }

  /** `sub` occurs in `s` starting at index `i`. */
  predicate OccursAt(s: string, sub: string, i: int) {
    0 <= i <= |s| - |sub| && s[i..i + |sub|] == sub
  }

  /** `Contains` holds exactly when `sub` occurs at some position of `s`. */
  lemma {:induction false} ContainsIff(s: string, sub: string)
    ensures Contains(s, sub) <==> exists i :: OccursAt(s, sub, i)
    decreases |s|
  {
    if |s| > 0 {
      ContainsIff(s[1..], sub);
      assert forall i :: 0 < i && OccursAt(s, sub, i) ==> OccursAt(s[1..], sub, i - 1);
      assert forall j :: OccursAt(s[1..], sub, j) ==> OccursAt(s, sub, j + 1);
      assert OccursAt(s, sub, 0) <==> StartsWith(s, sub);
    } else {
      assert forall i :: OccursAt(s, sub, i) ==> i == 0;
      assert OccursAt(s, sub, 0) <==> StartsWith(s, sub);
    }
  }

  /** A string lacking some character of `sub` does not contain `sub`. */
  lemma {:induction false} NotContainsWithout(s: string, sub: string, j: nat)
    requires j < |sub| && sub[j] !in s
    ensures !Contains(s, sub)
    decreases |s|
  {
    assert forall k :: 0 <= k < |s| ==> s[k] != sub[j];
    assert |sub| <= |s| ==> s[..|sub|][j] == s[j];
    if |s| > 0 {
      assert forall k :: 0 <= k < |s[1..]| ==> s[1..][k] == s[k + 1];
      NotContainsWithout(s[1..], sub, j);
    }
  }

  // ---------------------------------------------------------------------------------------------
  // numbers as text

  predicate AllDigits(s: string) {
    forall i :: 0 <= i < |s| ==> IsDigit(s[i])
  }

  function DigitChar(d: nat): (c: char)
    requires d < 10
    ensures IsDigit(c)
  {
    (48 + d) as char
  }

  function DigitValue(c: char): (d: nat)
    requires IsDigit(c)
    ensures d < 10
  {
    c as int - 48
  }

  /** The decimal representation of `n`, as a template string writes it. */
  function NatToString(n: nat): (s: string)
    ensures |s| > 0 && AllDigits(s)
    ensures |s| > 1 ==> s[0] != '0'
    decreases n
  {
    if n < 10 then [DigitChar(n)] else NatToString(n / 10) + [DigitChar(n % 10)]
  }

  /** `${n}` for an integer `n`. */
  function IntToString(n: int): (s: string)
    ensures |s| > 0
    ensures s[0] == '-' <==> n < 0
  {
    if n < 0 then "-" + NatToString(-n) else NatToString(n)
  }

  /** The number a string of decimal digits denotes. */
  function DigitsValue(s: string): nat
    requires AllDigits(s)
  {
    if |s| == 0 then 0 else 10 * DigitsValue(s[..|s| - 1]) + DigitValue(s[|s| - 1])
  }

  lemma {:induction false} NatToStringValue(n: nat)
    ensures DigitsValue(NatToString(n)) == n
    decreases n
  {
    if n >= 10 {
      var s := NatToString(n);
      NatToStringValue(n / 10);
      assert s[..|s| - 1] == NatToString(n / 10);
    }
  }

  /** `x` divided by ten `k` times: the value of `x` read `k` places after the decimal point. */
  function ShiftRight(x: real, k: nat): real {
    if k == 0 then x else ShiftRight(x, k - 1) / 10.0
  }

  /** The longest prefix of `s` made of decimal digits. */
  function LeadingDigits(s: string): (r: string)
    ensures |r| <= |s| && AllDigits(r)
  {
    if |s| == 0 || !IsDigit(s[0]) then "" else [s[0]] + LeadingDigits(s[1..])
  }

  /** `LeadingDigits` is a prefix, and the longest one made of digits. */
  lemma {:induction false} LeadingDigitsIsLongestPrefix(s: string)
    ensures LeadingDigits(s) == s[..|LeadingDigits(s)|]
    ensures |LeadingDigits(s)| < |s| ==> !IsDigit(s[|LeadingDigits(s)|])
  {
    if |s| > 0 && IsDigit(s[0]) {
      LeadingDigitsIsLongestPrefix(s[1..]);
      var r := LeadingDigits(s[1..]);
      assert LeadingDigits(s) == [s[0]] + r;
      assert s[..1 + |r|] == [s[0]] + s[1..][..|r|];
      assert 1 + |r| < |s| ==> s[1 + |r|] == s[1..][|r|];
    }
  }

  /** Digits followed by a non-digit (or nothing) are read up to the non-digit. */
  lemma {:induction false} LeadingDigitsOf(ds: string, rest: string)
    requires AllDigits(ds)
    requires |rest| > 0 ==> !IsDigit(rest[0])
    ensures LeadingDigits(ds + rest) == ds
  {
    if |ds| == 0 {
      assert ds + rest == rest;
    } else {
      assert (ds + rest)[0] == ds[0];
      assert (ds + rest)[1..] == ds[1..] + rest;
      LeadingDigitsOf(ds[1..], rest);
      assert [ds[0]] + ds[1..] == ds;
    }
  }

  /** The digits after a leading '.', if any. */
  function FractionDigits(rest: string): string {
    if |rest| > 0 && rest[0] == '.' then LeadingDigits(rest[1..]) else ""
  }

  /** An unsigned number: digits* ('.' digits*)?, with at least one digit. */
  function ParseMagnitude(body: string): Option<real> {
    var whole := LeadingDigits(body);
    var fraction := FractionDigits(body[|whole|..]);
    if |whole| == 0 && |fraction| == 0 then None
    else Some(DigitsValue(whole) as real + ShiftRight(DigitsValue(fraction) as real, |fraction|))
  }

  /** The length of an optional leading sign. */
  function SignLength(t: string): (k: nat)
    ensures k <= |t|
  {
    if |t| > 0 && (t[0] == '-' || t[0] == '+') then 1 else 0
  }

  /** `parseFloat(s)`: leading white space is skipped, then the longest prefix of the form
      sign? digits* ('.' digits*)? is read; `None` is `NaN` (no digit at all). */
  function ParseFloat(s: string): (r: Option<real>)
    ensures |TrimStart(s)| == 0 ==> r.None?
    ensures |TrimStart(s)| > 0 && IsDigit(TrimStart(s)[0]) ==> r.Some?
    ensures |TrimStart(s)| > 0 && !IsDigit(TrimStart(s)[0]) && TrimStart(s)[0] !in "+-." ==> r.None?
  {
    TrimStartSuffix(s);
    var t := TrimStart(s);
    var magnitude := ParseMagnitude(t[SignLength(t)..]);
    if SignLength(t) == 1 && t[0] == '-' && magnitude.Some? then Some(-magnitude.value) else magnitude
  }

  /** Reading stops at the first character that cannot continue a number: "1,247" reads as 1. */
  lemma ParseFloatStopsAtComma()
    ensures ParseFloat("1,247") == Some(1.0)
  {
    var s := "1,247";
    assert TrimStart(s) == s;
    assert s == "1" + ",247";
    LeadingDigitsOf("1", ",247");
    assert s[1..] == ",247";
    assert FractionDigits(",247") == "";
    assert DigitsValue("1") == 1 by {
      assert "1"[..0] == "";
    }
  }

  /** A number rounded to one decimal by `toFixed(1)`: sign and magnitude in tenths. The sign is
      kept apart because `(-0.04).toFixed(1)` is "-0.0". */
  datatype Fixed1 = Fixed1(negative: bool, tenths: nat)

  function Fixed1Value(f: Fixed1): real {
    if f.negative then -(f.tenths as real / 10.0) else f.tenths as real / 10.0
  }

  /** `x.toFixed(1)` as a value: the magnitude is rounded to the nearest tenth, ties away from zero. */
  function ToFixed1(x: real): (f: Fixed1)
    ensures f.negative <==> x < 0.0
    ensures -0.05 <= Fixed1Value(f) - x <= 0.05
  {
    var m := if x < 0.0 then -x else x;
    var n := (m * 10.0 + 0.5).Floor;
    assert n as real <= m * 10.0 + 0.5 < n as real + 1.0;
    Fixed1(x < 0.0, n)
  }

  /** Rounding to tenths never carries a value past a multiple of a tenth: a value within 1 of
      k tenths rounds to within 1 of k tenths. */
  lemma ToFixed1NearTenth(k: int, x: real)
    requires (k - 10) as real <= x * 10.0 <= (k + 10) as real
    ensures -1.0 <= Fixed1Value(ToFixed1(x)) - k as real / 10.0 <= 1.0
  {
    var m := if x < 0.0 then -x else x;
    var n := ToFixed1(x).tenths;
    assert n as real <= m * 10.0 + 0.5 < n as real + 1.0;
    if x < 0.0 {
      assert -k - 10 <= n <= -k + 10;
    } else {
      assert k - 10 <= n <= k + 10;
    }
  }

  /** A multiple of a tenth moved by less than 1 and rounded to tenths stays within 1 of where
      it started. */
  lemma ToFixed1StepNear(f0: Fixed1, w: real)
    requires -1.0 <= w < 1.0
    ensures -1.0 <= Fixed1Value(ToFixed1(Fixed1Value(f0) + w)) - Fixed1Value(f0) <= 1.0
  {
    var k: int := if f0.negative then -(f0.tenths as int) else f0.tenths;
    assert Fixed1Value(f0) == k as real / 10.0;
    var x := Fixed1Value(f0) + w;
    assert -10.0 <= w * 10.0 < 10.0;
    assert x * 10.0 == k as real + w * 10.0;
    ToFixed1NearTenth(k, x);
  }

  /** The text `toFixed(1)` produces. */
  function RenderFixed1(f: Fixed1): (s: string)
    ensures |s| >= 3 && s[|s| - 2] == '.' && IsDigit(s[|s| - 1])
    ensures s[0] == '-' <==> f.negative
  {
    (if f.negative then "-" else "") + TenthsText(f.tenths)
  }

  /** The unsigned text of a count of tenths: whole part, '.', one digit. */
  function TenthsText(t: nat): string {
    NatToString(t / 10) + "." + [DigitChar(t % 10)]
  }

  lemma {:induction false} MagnitudeOfFixed(q: nat, r: nat)
    requires r < 10
    ensures ParseMagnitude(NatToString(q) + "." + [DigitChar(r)]) == Some(q as real + r as real / 10.0)
  {
    var digits := NatToString(q);
    var d := DigitChar(r);
    var body := digits + "." + [d];
    assert body == digits + ("." + [d]);
    LeadingDigitsOf(digits, "." + [d]);
    assert body[|digits|..] == "." + [d];
    assert ("." + [d])[1..] == [d] + "";
    LeadingDigitsOf([d], "");
    NatToStringValue(q);
    assert DigitsValue([d]) == r by {
      assert [d][..0] == "";
    }
    assert LeadingDigits(body) == digits;
    assert FractionDigits(body[|digits|..]) == [d];
    assert ShiftRight(r as real, 1) == r as real / 10.0;
    assert |digits| > 0;
    assert ParseMagnitude(body) == Some(DigitsValue(digits) as real + ShiftRight(DigitsValue([d]) as real, 1));
  }

  lemma TenthsSplit(t: nat)
    ensures (t / 10) as real + (t % 10) as real / 10.0 == t as real / 10.0
  {
    var q, r := t / 10, t % 10;
    assert t == 10 * q + r;
    assert t as real == 10.0 * q as real + r as real;
  }

  /** The unsigned text of a count of tenths starts with a digit and reads back as that count
      divided by ten. */
  lemma TenthsTextParses(t: nat)
    ensures |TenthsText(t)| > 0 && IsDigit(TenthsText(t)[0])
    ensures ParseMagnitude(TenthsText(t)) == Some(t as real / 10.0)
  {
    MagnitudeOfFixed(t / 10, t % 10);
    TenthsSplit(t);
  }

  lemma ParseFloatUnsigned(body: string)
    requires |body| > 0 && IsDigit(body[0])
    ensures ParseFloat(body) == ParseMagnitude(body)
  {
    TrimStartKeeps(body);
    assert SignLength(body) == 0;
  }

  lemma ParseFloatMinus(body: string)
    requires |body| > 0 && IsDigit(body[0])
    ensures ParseFloat("-" + body)
            == if ParseMagnitude(body).Some? then Some(-ParseMagnitude(body).value) else None
  {
    var s := "-" + body;
    TrimStartKeeps(s);
    assert SignLength(s) == 1;
    assert s[1..] == body;
  }

  /** `parseFloat` of a digit-led body with an optional minus sign in front: the sign is applied
      to what the body reads as. */
  lemma SignedParse(negative: bool, body: string)
    requires |body| > 0 && IsDigit(body[0])
    ensures ParseFloat((if negative then "-" else "") + body)
            == if negative && ParseMagnitude(body).Some? then Some(-ParseMagnitude(body).value)
               else ParseMagnitude(body)
  {
    if negative {
      ParseFloatMinus(body);
    } else {
      assert "" + body == body;
      ParseFloatUnsigned(body);
    }
  }

  /** A digit-led body that reads as `v` reads as `-v` once a minus sign is put in front. */
  lemma SignedRoundTrip(negative: bool, body: string)
    requires |body| > 0 && IsDigit(body[0])
    requires ParseMagnitude(body).Some?
    ensures ParseFloat((if negative then "-" else "") + body)
            == Some(if negative then -ParseMagnitude(body).value else ParseMagnitude(body).value)
  {
    SignedParse(negative, body);
  }

  /** `toFixed(1)` text reads back, through `parseFloat`, as the rounded value. */
  lemma RenderFixed1RoundTrip(f: Fixed1)
    ensures ParseFloat(RenderFixed1(f)) == Some(Fixed1Value(f))
  {
    var body := TenthsText(f.tenths);
    var s := RenderFixed1(f);
    assert s == (if f.negative then "-" else "") + body;
    TenthsTextParses(f.tenths);
    var m := f.tenths as real / 10.0;
    assert ParseMagnitude(body) == Some(m);
    SignedRoundTrip(f.negative, body);
    assert ParseFloat(s) == Some(if f.negative then -m else m);
  }
}
