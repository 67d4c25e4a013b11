/** The handful of Python string operations the synchronisation code relies on:
    `str(int)`, `int(str)`, `"{:04d}".format`, `str.strip`, ASCII `str.lower`,
    `str.startswith`, `str.split(c)[0]` and the code-point order on strings. */
module Text {
  import opened Base

  // ---------------------------------------------------------------- digits

  predicate IsDigit(c: char) {
    '0' <= c <= '9'
  }

  predicate AllDigits(s: string) {
    forall i :: 0 <= i < |s| ==> IsDigit(s[i])
  }

  function DigitChar(d: nat): (c: char)
    requires d < 10
    ensures IsDigit(c) && c as int - '0' as int == d
  {
    ('0' as int + d) as char
  }

  /** The value of a string of decimal digits, most significant first. */
  function DigitsValue(s: string): nat
    requires AllDigits(s)
  {
    if s == [] then 0
    else DigitsValue(s[..|s| - 1]) * 10 + (s[|s| - 1] as int - '0' as int)
  }

  function Pow10(k: nat): (p: nat)
    ensures p >= 1
  {
    if k == 0 then 1 else 10 * Pow10(k - 1)
  }

  /** Python `str(n)` for `n >= 0`. */
  function NatToString(n: nat): (s: string)
    ensures |s| >= 1 && AllDigits(s)
    decreases n
  {
    if n < 10 then [DigitChar(n)] else NatToString(n / 10) + [DigitChar(n % 10)]
  }

  /** Python `str(n)` for any integer. */
  function IntToString(n: int): string {
    if n < 0 then "-" + NatToString(-n) else NatToString(n)
  }

  function Zeros(k: nat): (s: string)
    ensures |s| == k && AllDigits(s)
  {
    if k == 0 then "" else "0" + Zeros(k - 1)
  }

  /** Left-pads a digit string with zeros to at least `width` characters. */
  function PadDigits(s: string, width: nat): (r: string)
    requires AllDigits(s)
    ensures AllDigits(r) && |r| == if |s| >= width then |s| else width
  {
    if |s| >= width then s else Zeros(width - |s|) + s
  }

  /** Python `f"{n:04d}"`: at least four characters; a minus sign counts
      towards the width and the zeros go after it. */
  function Format04(n: int): string {
    if n >= 0 then PadDigits(NatToString(n), 4) else "-" + PadDigits(NatToString(-n), 3)
  }

  // -------------------------------------------------------------- whitespace

  /** The characters for which Python's `str.isspace` holds, and which
      `str.strip()` and `int()` remove: the ASCII controls and space, and
      the Unicode separators (no-break, ideographic and the other spaces,
      the line and paragraph separators). */
  predicate IsSpace(c: char) {
    c == ' ' || '\U{9}' <= c <= '\U{d}' || '\U{1c}' <= c <= '\U{1f}'
    || c == '\U{85}' || c == '\U{a0}' || c == '\U{1680}' || '\U{2000}' <= c <= '\U{200a}'
    || c == '\U{2028}' || c == '\U{2029}' || c == '\U{202f}' || c == '\U{205f}' || c == '\U{3000}'
  }

  function TrimLeft(s: string): (r: string)
    ensures r == [] || !IsSpace(r[0])
  {
    if s != [] && IsSpace(s[0]) then TrimLeft(s[1..]) else s
  }

  function TrimRight(s: string): (r: string)
    ensures r == [] || !IsSpace(r[|r| - 1])
  {
    if s != [] && IsSpace(s[|s| - 1]) then TrimRight(s[..|s| - 1]) else s
  }

  /** Python `str.strip()`. */
  function Strip(s: string): string {
    TrimRight(TrimLeft(s))
  }

  predicate Blank(s: string) {
    forall i :: 0 <= i < |s| ==> IsSpace(s[i])
  }

  lemma {:induction false} TrimLeftEmptyIffBlank(s: string)
    ensures TrimLeft(s) == [] <==> Blank(s)
  {
    if s != [] && IsSpace(s[0]) {
      TrimLeftEmptyIffBlank(s[1..]);
      assert Blank(s) <==> Blank(s[1..]) by {
        if Blank(s[1..]) {
          forall i | 0 <= i < |s| ensures IsSpace(s[i]) {
            if i > 0 { assert s[i] == s[1..][i - 1]; }
          }
        }
      }
    }
  }

  lemma {:induction false} TrimRightEmptyIffBlank(s: string)
    ensures TrimRight(s) == [] <==> Blank(s)
  {
    if s != [] && IsSpace(s[|s| - 1]) {
      var t := s[..|s| - 1];
      TrimRightEmptyIffBlank(t);
      assert Blank(s) <==> Blank(t) by {
        if Blank(t) {
          forall i | 0 <= i < |s| ensures IsSpace(s[i]) {
            if i < |s| - 1 { assert s[i] == t[i]; }
          }
        }
      }
    }
  }

  /** `s.strip() == ""` exactly when `s` is empty or all whitespace. */
  lemma StripEmptyIffBlank(s: string)
    ensures Strip(s) == "" <==> Blank(s)
  {
    var l := TrimLeft(s);
    TrimLeftEmptyIffBlank(s);
    TrimRightEmptyIffBlank(l);
  }

  // -------------------------------------------------------------- integers

  predicate IsSign(c: char) {
    c == '-' || c == '+'
  }

  /** Python `int(s)` on a string: surrounding whitespace, an optional sign
      and at least one ASCII digit; anything else raises `ValueError`,
      modelled as `None`. Digit-group underscores and non-ASCII digits,
      which `int()` also accepts, are refused here. */
  function ParseInt(s: string): (r: Option<int>)
    ensures r.Some? ==> Strip(s) != ""
  {
    var t := Strip(s);
    if |t| >= 2 && IsSign(t[0]) && AllDigits(t[1..]) then
      Some(if t[0] == '-' then -(DigitsValue(t[1..]) as int) else DigitsValue(t[1..]))
    else if |t| >= 1 && AllDigits(t) then
      Some(DigitsValue(t))
    else
      None
  }

  lemma {:induction false} DigitsValueAppend(a: string, b: string)
    requires AllDigits(a) && AllDigits(b)
    ensures AllDigits(a + b)
    ensures DigitsValue(a + b) == DigitsValue(a) * Pow10(|b|) + DigitsValue(b)
    decreases |b|
  {
    assert AllDigits(a + b) by {
      forall i | 0 <= i < |a + b| ensures IsDigit((a + b)[i]) {
        if i < |a| { assert (a + b)[i] == a[i]; } else { assert (a + b)[i] == b[i - |a|]; }
      }
    }
    if b == [] {
      assert a + b == a;
    } else {
      var b' := b[..|b| - 1];
      assert AllDigits(b');
      assert (a + b)[..|a + b| - 1] == a + b';
      DigitsValueAppend(a, b');
      var d := b[|b| - 1] as int - '0' as int;
      assert DigitsValue(a + b) == DigitsValue(a + b') * 10 + d;
      assert DigitsValue(b) == DigitsValue(b') * 10 + d;
      assert Pow10(|b|) == Pow10(|b'|) * 10;
      ShiftStep(DigitsValue(a), Pow10(|b'|), DigitsValue(b'), d);
    }
  }

  lemma ShiftStep(x: int, p: int, y: int, d: int)
    ensures (x * p + y) * 10 + d == x * (p * 10) + (y * 10 + d)
  {
  }

  lemma {:induction false} ZerosValue(k: nat)
    ensures DigitsValue(Zeros(k)) == 0
  {
    if k > 0 {
      ZerosValue(k - 1);
      DigitsValueAppend("0", Zeros(k - 1));
      assert DigitsValue("0") == 0;
    }
  }

  lemma {:induction false} NatToStringValue(n: nat)
    ensures DigitsValue(NatToString(n)) == n
    decreases n
  {
    if n >= 10 {
      NatToStringValue(n / 10);
      var s := NatToString(n / 10) + [DigitChar(n % 10)];
      assert s[..|s| - 1] == NatToString(n / 10);
    }
  }

  lemma {:induction false} PadDigitsValue(s: string, width: nat)
    requires AllDigits(s)
    ensures DigitsValue(PadDigits(s, width)) == DigitsValue(s)
  {
    if |s| < width {
      var z := Zeros(width - |s|);
      ZerosValue(width - |s|);
      DigitsValueAppend(z, s);
      assert PadDigits(s, width) == z + s;
      assert DigitsValue(z + s) == 0 * Pow10(|s|) + DigitsValue(s);
    }
  }

  lemma {:induction false} StripUnpadded(s: string)
    requires s != [] && !IsSpace(s[0]) && !IsSpace(s[|s| - 1])
    ensures Strip(s) == s
  {
    assert TrimLeft(s) == s;
  }

  /** `int(str(n)) == n`. */
  lemma {:induction false} IntToStringRoundTrip(n: int)
    ensures ParseInt(IntToString(n)) == Some(n)
  {
    if n < 0 {
      IntToStringDigits(n);
      SignedRoundTrip(IntToString(n), NatToString(-n), -n);
    } else {
      IntToStringDigits(n);
      UnsignedRoundTrip(IntToString(n), n);
    }
  }

  /** `str(n)` is an optional minus sign followed by the digits of `|n|`. */
  lemma {:induction false} IntToStringDigits(n: int)
    ensures n < 0 ==> IntToString(n) == "-" + NatToString(-n) && DigitsValue(NatToString(-n)) == -n
    ensures n >= 0 ==> IntToString(n) == NatToString(n) && DigitsValue(NatToString(n)) == n
  {
    NatToStringValue(if n < 0 then -n else n);
  }

  /** A string of digits with value `v` reads back as `v`. */
  lemma {:induction false} UnsignedRoundTrip(d: string, v: nat)
    requires |d| >= 1 && AllDigits(d) && DigitsValue(d) == v
    ensures ParseInt(d) == Some(v)
  {
    StripUnpadded(d);
    assert !(|d| >= 2 && IsSign(d[0]));
  }

  /** A minus sign followed by a string of digits with value `v` reads back as `-v`. */
  lemma {:induction false} SignedRoundTrip(s: string, d: string, v: nat)
    requires |d| >= 1 && AllDigits(d) && s == "-" + d && DigitsValue(d) == v
    ensures ParseInt(s) == Some(-(v as int))
  {
    assert s[1..] == d;
    assert s[|s| - 1] == d[|d| - 1];
    StripUnpadded(s);
    assert |s| >= 2 && IsSign(s[0]);
    assert AllDigits(s[1..]);
  }

  /** `int(f"{n:04d}") == n`, and the text is at least four characters long. */
  lemma {:induction false} Format04RoundTrip(n: int)
    ensures ParseInt(Format04(n)) == Some(n)
    ensures |Format04(n)| >= 4
  {
    Format04Digits(n);
    if n < 0 {
      SignedRoundTrip(Format04(n), PadDigits(NatToString(-n), 3), -n);
    } else {
      UnsignedRoundTrip(Format04(n), n);
    }
  }

  /** `f"{n:04d}"` is an optional minus sign followed by zero-padded digits of `|n|`. */
  lemma {:induction false} Format04Digits(n: int)
    ensures n < 0 ==> Format04(n) == "-" + PadDigits(NatToString(-n), 3)
                      && DigitsValue(PadDigits(NatToString(-n), 3)) == -n
    ensures n >= 0 ==> DigitsValue(Format04(n)) == n
  {
    var m := if n < 0 then -n else n;
    NatToStringValue(m);
    PadDigitsValue(NatToString(m), if n < 0 then 3 else 4);
  }

  // ------------------------------------------------------------------ misc

  /** Python `s.startswith(p)`. */
  predicate StartsWith(s: string, p: string) {
    |p| <= |s| && s[..|p|] == p
  }

  /** Python `s.split(c)[0]`: the text before the first occurrence of `c`. */
  function Before(s: string, c: char): (r: string)
    ensures StartsWith(s, r)
    ensures c !in r
    ensures |r| < |s| ==> s[|r|] == c
  {
    if s == [] then "" else if s[0] == c then "" else [s[0]] + Before(s[1..], c)
  }

  /** The text after the first occurrence of `c`, if there is one. */
  function After(s: string, c: char): (r: Option<string>)
    ensures r.Some? <==> c in s
    ensures r.Some? ==> s == Before(s, c) + [c] + r.value
  {
    if s == [] then None
    else if s[0] == c then Some(s[1..])
    else match After(s[1..], c) {
      case None => None
      case Some(t) => Some(t)
    }
  }

  function LowerChar(c: char): (d: char)
    ensures !('A' <= c <= 'Z') ==> d == c
  {
    if 'A' <= c <= 'Z' then (c as int + 32) as char else c
  }

  /** ASCII `str.lower()`. */
  function Lower(s: string): (r: string)
    ensures |r| == |s|
    ensures forall i :: 0 <= i < |s| ==> r[i] == LowerChar(s[i])
  {
    if s == [] then "" else [LowerChar(s[0])] + Lower(s[1..])
  }

  /** The longest prefix of `s` holding none of the characters `stops`. */
  function PrefixWithout(s: string, stops: set<char>): (r: string)
    ensures StartsWith(s, r)
    ensures forall i :: 0 <= i < |r| ==> r[i] !in stops
    ensures |r| < |s| ==> s[|r|] in stops
  {
    if s == [] || s[0] in stops then "" else [s[0]] + PrefixWithout(s[1..], stops)
  }

  /** `s.rpartition(c)[2]`: the text after the last `c`, or all of `s`. */
  function AfterLast(s: string, c: char): (r: string)
    ensures c !in r
    ensures |r| <= |s| && s[|s| - |r|..] == r
    decreases |s|
  {
    match After(s, c)
    case None => s
    case Some(t) => AfterLast(t, c)
  }

  /** `s.split(sep)[0]`: the text before the first occurrence of `sep`. */
  function BeforeText(s: string, sep: string): (r: string)
    requires sep != []
    ensures StartsWith(s, r)
    decreases |s|
  {
    if |s| < |sep| then s else if s[..|sep|] == sep then "" else [s[0]] + BeforeText(s[1..], sep)
  }

  /** `s.lstrip(c)`. */
  function LStrip(s: string, c: char): (r: string)
    ensures r == [] || r[0] != c
    ensures |r| <= |s| && s[|s| - |r|..] == r
  {
    if s != [] && s[0] == c then LStrip(s[1..], c) else s
  }

  /** Python's `<=` on strings: code-point lexicographic order. */
  predicate StrLe(a: string, b: string) {
    if a == [] then true
    else if b == [] then false
    else if a[0] != b[0] then a[0] < b[0]
    else StrLe(a[1..], b[1..])
  }

  lemma {:induction false} StrLeTotal(a: string, b: string)
    ensures StrLe(a, b) || StrLe(b, a)
  {
    if a != [] && b != [] && a[0] == b[0] {
      StrLeTotal(a[1..], b[1..]);
    }
  }

  lemma {:induction false} StrLeTransitive(a: string, b: string, c: string)
    requires StrLe(a, b) && StrLe(b, c)
    ensures StrLe(a, c)
  {
    if a != [] && b != [] && c != [] && a[0] == b[0] && b[0] == c[0] {
      StrLeTransitive(a[1..], b[1..], c[1..]);
    }
  }

  lemma {:induction false} StrLeAntisymmetric(a: string, b: string)
    requires StrLe(a, b) && StrLe(b, a)
    ensures a == b
  {
    if a != [] && b != [] {
      StrLeAntisymmetric(a[1..], b[1..]);
    }
  }
}
