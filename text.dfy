/** Strings as the handlers build and take them apart: decimal rendering of
    integers (template literals), `parseInt`, `split` and `join` on one
    separator character, and ASCII case conversion. */
module Text {
  import opened Base

  predicate IsDigit(c: char) { '0' <= c <= '9' }

  predicate IsDigits(s: string) { forall i :: 0 <= i < |s| ==> IsDigit(s[i]) }

  function DigitValue(c: char): (d: nat)
    requires IsDigit(c)
    ensures d < 10
  {
    c as int - '0' as int
  }

  function DigitChar(d: nat): (c: char)
    requires d < 10
    ensures IsDigit(c) && DigitValue(c) == d
  {
    ('0' as int + d) as char
  }

  /** The value of a string of decimal digits; the empty string is 0. */
  function DigitsValue(s: string): nat
    requires IsDigits(s)
  {
    if s == [] then 0 else 10 * DigitsValue(s[..|s| - 1]) + DigitValue(s[|s| - 1])
  }

  /** `${n}` for a non-negative integer: shortest decimal rendering. */
  function NatToString(n: nat): (r: string)
    ensures |r| >= 1 && IsDigits(r) && DigitsValue(r) == n
    ensures r[0] == '0' ==> n == 0 && |r| == 1
  {
    if n < 10 then [DigitChar(n)]
    else
      var p := NatToString(n / 10);
      var r := p + [DigitChar(n % 10)];
      assert r[..|r| - 1] == p;
      r
  }

  lemma {:induction false} LeadingDigitPositive(s: string)
    requires IsDigits(s) && |s| >= 1 && s[0] != '0'
    ensures DigitsValue(s) >= 1
  {
    if |s| > 1 {
      LeadingDigitPositive(s[..|s| - 1]);
    }
  }

  /** Rendering is injective: a canonical digit string is the rendering of its value. */
  lemma {:induction false} NatToStringOfDigits(s: string)
    requires IsDigits(s) && |s| >= 1 && (s[0] == '0' ==> |s| == 1)
    ensures NatToString(DigitsValue(s)) == s
  {
    var n := DigitsValue(s);
    if |s| > 1 {
      var p := s[..|s| - 1];
      LeadingDigitPositive(p);
      assert n / 10 == DigitsValue(p) && n % 10 == DigitValue(s[|s| - 1]);
      NatToStringOfDigits(p);
      assert s == p + [s[|s| - 1]];
    }
  }

  /** `${i}` for any integer. */
  function IntToString(i: int): (r: string)
    ensures |r| >= 1
    ensures i >= 0 ==> r == NatToString(i)
    ensures i < 0 ==> r[0] == '-' && r[1..] == NatToString(-i)
  {
    if i < 0 then "-" + NatToString(-i) else NatToString(i)
  }

  /** The longest prefix of `s` made of decimal digits. */
  function DigitPrefix(s: string): (p: string)
    ensures p <= s && IsDigits(p)
    ensures |p| == |s| || !IsDigit(s[|p|])
  {
    if s == [] || !IsDigit(s[0]) then []
    else [s[0]] + DigitPrefix(s[1..])
  }

  /** The white space `parseInt` and `Number()` skip: tab, line feed, line
      tabulation, form feed, carriage return, the space separators of Unicode
      category Zs, the byte order mark and the two Unicode line terminators. */
  predicate IsSpace(c: char) {
    c == '\t' || c == '\n' || c == '\U{000B}' || c == '\U{000C}' || c == '\r' || c == ' '
    || c == '\U{00A0}' || c == '\U{1680}' || ('\U{2000}' <= c <= '\U{200A}')
    || c == '\U{2028}' || c == '\U{2029}' || c == '\U{202F}' || c == '\U{205F}'
    || c == '\U{3000}' || c == '\U{FEFF}'
  }

  predicate IsBlank(s: string) { forall i :: 0 <= i < |s| ==> IsSpace(s[i]) }

  predicate HasDigit(s: string) { exists i :: 0 <= i < |s| && IsDigit(s[i]) }

  /** The number of white-space characters `s` starts with. */
  function SpacesBefore(s: string): (n: nat)
    ensures n <= |s| && (n == |s| || !IsSpace(s[n]))
    ensures forall i :: 0 <= i < n ==> IsSpace(s[i])
  {
    if s != [] && IsSpace(s[0]) then 1 + SpacesBefore(s[1..]) else 0
  }

  /** The number of white-space characters `s` ends with. */
  function SpacesAfter(s: string): (n: nat)
    ensures n <= |s| && (n == |s| || !IsSpace(s[|s| - 1 - n]))
    ensures forall i :: |s| - n <= i < |s| ==> IsSpace(s[i])
  {
    if s != [] && IsSpace(s[|s| - 1]) then 1 + SpacesAfter(s[..|s| - 1]) else 0
  }

  /** `s` without its leading white space. */
  function TrimStart(s: string): string {
    s[SpacesBefore(s)..]
  }

  /** `s.trim()`. */
  function Trim(s: string): (r: string)
    ensures r == [] <==> IsBlank(s)
    ensures HasDigit(r) ==> HasDigit(s)
    ensures s != [] && !IsSpace(s[0]) && !IsSpace(s[|s| - 1]) ==> r == s
    ensures r != [] ==> !IsSpace(r[0]) && !IsSpace(r[|r| - 1])
  {
    var k := SpacesBefore(s);
    var a := s[k..];
    var r := a[..|a| - SpacesAfter(a)];
    assert forall i :: 0 <= i < |r| ==> r[i] == s[k + i];
    r
  }

  /** One space on each side of a word is trimmed away. */
  lemma TrimPadded(w: string)
    requires w != [] && !IsSpace(w[0]) && !IsSpace(w[|w| - 1])
    ensures Trim(" " + w + " ") == w
  {
    var padded := " " + w + " ";
    var a := padded[1..];
    assert a == w + " ";
    assert SpacesBefore(padded) == 1 by { assert padded[1] == w[0]; }
    assert SpacesAfter(a) == 1 by {
      assert a[..|a| - 1] == w;
      assert a[|a| - 1 - 1] == w[|w| - 1];
    }
    assert a[..|a| - 1] == w;
  }

  /** The value of `c` as a digit of a base up to 16 (`0`-`9`, `a`-`f`,
      `A`-`F`), or 16 when it is none. */
  function DigitOf(c: char): (d: nat)
    ensures d <= 16 && (d < 10 <==> IsDigit(c))
    ensures IsDigit(c) ==> d == DigitValue(c)
  {
    if IsDigit(c) then DigitValue(c)
    else if 'a' <= c <= 'f' then c as int - 'a' as int + 10
    else if 'A' <= c <= 'F' then c as int - 'A' as int + 10
    else 16
  }

  predicate InRadix(s: string, radix: nat) { forall i :: 0 <= i < |s| ==> DigitOf(s[i]) < radix }

  /** The value of a string of digits in base `radix`; the empty string is 0. */
  function RadixValue(s: string, radix: nat): nat
    requires InRadix(s, radix)
  {
    if s == [] then 0 else radix * RadixValue(s[..|s| - 1], radix) + DigitOf(s[|s| - 1])
  }

  /** The longest prefix of `s` made of digits of base `radix`. */
  function RadixPrefix(s: string, radix: nat): (p: string)
    ensures p <= s && InRadix(p, radix)
    ensures |p| == |s| || DigitOf(s[|p|]) >= radix
  {
    if s == [] || DigitOf(s[0]) >= radix then []
    else [s[0]] + RadixPrefix(s[1..], radix)
  }

  /** `0x` or `0X`: the prefix that makes `parseInt` read base 16. */
  predicate HasHexPrefix(s: string) { |s| >= 2 && s[0] == '0' && (s[1] == 'x' || s[1] == 'X') }

  /** `parseInt` after the sign: hexadecimal digits after a `0x` prefix, else
      the leading decimal digits; `None` when there is no digit to read. */
  function ParseUnsigned(body: string): (r: Option<int>)
    ensures r.Some? ==> r.value >= 0
    ensures IsDigits(body) && body != [] ==> r == Some(DigitsValue(body))
    ensures !HasHexPrefix(body) ==> (r.Some? <==> body != [] && IsDigit(body[0]))
    ensures !HasHexPrefix(body) && r.Some? ==> r.value == DigitsValue(DigitPrefix(body))
    ensures HasHexPrefix(body) ==> (r.Some? <==> |body| > 2 && DigitOf(body[2]) < 16)
    ensures HasHexPrefix(body) && r.Some? ==> r.value == RadixValue(RadixPrefix(body[2..], 16), 16)
  {
    if HasHexPrefix(body) then
      var p := RadixPrefix(body[2..], 16);
      if p == [] then None else Some(RadixValue(p, 16))
    else
      var p := DigitPrefix(body);
      assert IsDigits(body) ==> p == body;
      if p == [] then None else Some(DigitsValue(p))
  }

  /** JavaScript's `parseInt(s)` without a radix: leading white space skipped,
      an optional sign, then what `ParseUnsigned` reads; `None` stands for `NaN`. */
  function ParseInt(s: string): (r: Option<int>)
    ensures IsDigits(s) && s != [] ==> r == Some(DigitsValue(s))
    ensures s != [] && IsDigit(s[0]) ==> r == ParseUnsigned(s)
    ensures s == [] ==> r.None?
    ensures s != [] && !IsSpace(s[0]) && !IsDigit(s[0]) && s[0] != '-' && s[0] != '+' ==> r.None?
    ensures s != [] && s[0] == '+' ==> r == ParseUnsigned(s[1..])
    ensures s != [] && s[0] == '-' ==>
      (r.Some? <==> ParseUnsigned(s[1..]).Some?) && (r.Some? ==> r.value == -ParseUnsigned(s[1..]).value)
    decreases |s|
  {
    if s == [] then None
    else if IsSpace(s[0]) then ParseInt(s[1..])
    else if s[0] == '-' || s[0] == '+' then
      var magnitude := ParseUnsigned(s[1..]);
      if magnitude.None? then None
      else if s[0] == '-' then Some(-magnitude.value)
      else magnitude
    else ParseUnsigned(s)
  }

  /** The leading decimal digits of `body` as a number; `None` when it does
      not start with a digit. */
  function DecimalPrefix(body: string): (r: Option<int>)
    ensures r.Some? <==> body != [] && IsDigit(body[0])
    ensures r.Some? ==> r.value == DigitsValue(DigitPrefix(body))
    ensures IsDigits(body) && body != [] ==> r == Some(DigitsValue(body))
  {
    var p := DigitPrefix(body);
    assert IsDigits(body) ==> p == body;
    if p == [] then None else Some(DigitsValue(p))
  }

  /** JavaScript's `parseInt(s, 10)`: leading white space skipped, an optional
      sign, then the leading decimal digits, with no `0x` reading; `None`
      stands for `NaN`. */
  function ParseDecimalInt(s: string): (r: Option<int>)
    ensures IsDigits(s) && s != [] ==> r == Some(DigitsValue(s))
    ensures s == [] ==> r.None?
    ensures s != [] && IsDigit(s[0]) ==> r == DecimalPrefix(s)
    ensures s != [] && !IsSpace(s[0]) && !IsDigit(s[0]) && s[0] != '-' && s[0] != '+' ==> r.None?
    ensures s != [] && (s[0] == '-' || s[0] == '+') ==>
      (r.Some? <==> DecimalPrefix(s[1..]).Some?)
      && (r.Some? ==> r.value == if s[0] == '-' then -DecimalPrefix(s[1..]).value else DecimalPrefix(s[1..]).value)
    decreases |s|
  {
    if s == [] then None
    else if IsSpace(s[0]) then ParseDecimalInt(s[1..])
    else if s[0] == '-' || s[0] == '+' then
      var magnitude := DecimalPrefix(s[1..]);
      if magnitude.None? then None
      else if s[0] == '-' then Some(-magnitude.value)
      else magnitude
    else DecimalPrefix(s)
  }

  /** The non-negative integer whose rendering `s` is, if any: the numeric
      property that a JavaScript object lookup with the key text `s` hits. */
  function KeyIndex(s: string): (r: Option<int>)
    ensures r.Some? ==> r.value >= 0 && IsDigits(s) && s != [] && (s[0] == '0' ==> |s| == 1) && DigitsValue(s) == r.value
    ensures r.None? ==> !(IsDigits(s) && s != [] && (s[0] == '0' ==> |s| == 1))
  {
    if IsDigits(s) && s != [] && (s[0] == '0' ==> |s| == 1) then Some(DigitsValue(s)) else None
  }

  /** White space in front of a text does not change what `parseInt` reads. */
  lemma {:induction false} ParseIntSkipsSpace(ws: string, t: string)
    requires IsBlank(ws)
    ensures ParseInt(ws + t) == ParseInt(t)
    decreases |ws|
  {
    if ws == [] {
      assert ws + t == t;
    } else {
      assert (ws + t)[0] == ws[0] && IsSpace(ws[0]);
      assert (ws + t)[1..] == ws[1..] + t;
      ParseIntSkipsSpace(ws[1..], t);
    }
  }

  // ---------------------------------------------------------------------------
  // The decimal literals of `Number()`
  // ---------------------------------------------------------------------------

  /** `m × 10^e`, one factor of ten at a time. */
  function Scale(m: real, e: int): (r: real)
    ensures m >= 0.0 ==> r >= 0.0
    ensures e == 0 ==> r == m
    decreases if e >= 0 then e else -e
  {
    if e == 0 then m
    else if e > 0 then 10.0 * Scale(m, e - 1)
    else Scale(m, e + 1) / 10.0
  }

  /** Position of the first `e` or `E` in `s`, or `|s|` when there is none. */
  function ExponentMark(s: string): (i: nat)
    ensures i <= |s| && (i < |s| ==> s[i] == 'e' || s[i] == 'E')
    ensures forall k :: 0 <= k < i ==> s[k] != 'e' && s[k] != 'E'
  {
    if s == [] || s[0] == 'e' || s[0] == 'E' then 0 else 1 + ExponentMark(s[1..])
  }

  /** The exponent after the mark: an optional sign, then at least one digit. */
  function ExponentValue(s: string): (r: Option<int>)
    ensures r.Some? ==> HasDigit(s)
  {
    var signed := s != [] && (s[0] == '-' || s[0] == '+');
    var digits := if signed then s[1..] else s;
    if digits == [] || !IsDigits(digits) then None
    else
      assert IsDigit(s[|s| - 1]);
      var magnitude: int := DigitsValue(digits);
      if signed && s[0] == '-' then Some(-magnitude) else Some(magnitude)
  }

  /** The value of the digits after the `.`: `0.d₁d₂…`. */
  function FractionValue(frac: string): (r: real)
    requires IsDigits(frac)
    ensures 0.0 <= r < 1.0 && (frac == [] ==> r == 0.0)
  {
    if frac == [] then 0.0
    else
      assert IsDigits(frac[1..]) by {
        assert forall k :: 0 <= k < |frac| - 1 ==> frac[1..][k] == frac[k + 1];
      }
      (DigitValue(frac[0]) as real + FractionValue(frac[1..])) / 10.0
  }

  /** Digits with an optional `.` fraction, at least one digit in all. */
  function MantissaValue(m: string): (r: Option<real>)
    ensures IsDigits(m) && m != [] ==> r == Some(DigitsValue(m) as real)
    ensures r.Some? ==> r.value >= 0.0 && HasDigit(m)
  {
    var d := IndexOf(m, '.');
    var whole := m[..d];
    var frac := if d < |m| then m[d + 1..] else [];
    if !IsDigits(whole) || !IsDigits(frac) || |whole| + |frac| == 0 then None
    else
      assert |whole| > 0 ==> m[0] == whole[0];
      assert |whole| == 0 ==> m[d + 1] == frac[0];
      assert IsDigits(m) ==> d == |m| && whole == m;
      Some(DigitsValue(whole) as real + FractionValue(frac))
  }

  /** An unsigned decimal literal of `Number()`: a mantissa, then an optional
      exponent; `None` when the text is not one (`Infinity` included). */
  function DecimalValue(s: string): (r: Option<real>)
    ensures IsDigits(s) && s != [] ==> r == Some(DigitsValue(s) as real)
    ensures r.Some? ==> r.value >= 0.0 && HasDigit(s)
  {
    var e := ExponentMark(s);
    var mantissa := MantissaValue(s[..e]);
    var exponent := if e == |s| then Some(0) else ExponentValue(s[e + 1..]);
    if mantissa.None? || exponent.None? then None
    else
      assert HasDigit(s) by {
        var k :| 0 <= k < e && IsDigit(s[..e][k]);
        assert s[k] == s[..e][k];
      }
      assert IsDigits(s) ==> e == |s| && s[..e] == s;
      Some(Scale(mantissa.value, exponent.value))
  }

  /** Digits followed by a zero fraction `.0` read as the digits alone. */
  lemma DecimalOfZeroFraction(t: string)
    requires |t| >= 3 && IsDigits(t[..|t| - 2]) && t[|t| - 2] == '.' && t[|t| - 1] == '0'
    ensures DecimalValue(t) == Some(DigitsValue(t[..|t| - 2]) as real)
  {
    var w := t[..|t| - 2];
    assert ExponentMark(t) == |t| by {
      assert forall k :: 0 <= k < |t| - 2 ==> t[k] == w[k];
    }
    assert t[..|t|] == t;
    assert IndexOf(t, '.') == |w| by {
      assert forall k :: 0 <= k < |w| ==> t[k] == w[k];
    }
    assert t[|w| + 1..] == "0";
    assert DigitsValue("0") == 0 by {
      assert "0"[..0] == [] && "0"[0] == '0';
    }
    assert FractionValue("0") == (0 as real + FractionValue([])) / 10.0;
    assert MantissaValue(t) == Some(DigitsValue(w) as real);
    assert DecimalValue(t) == Some(Scale(DigitsValue(w) as real, 0));
  }

  /** The base a `0b`, `0o` or `0x` prefix announces to `Number()`, or 0. */
  function RadixOf(c: char): nat {
    if c == 'x' || c == 'X' then 16 else if c == 'o' || c == 'O' then 8 else if c == 'b' || c == 'B' then 2 else 0
  }

  lemma ParseIntOfRendering(n: nat)
    ensures ParseInt(NatToString(n)) == Some(n)
  {
  }

  // ---------------------------------------------------------------------------
  // split / join on one separator character
  // ---------------------------------------------------------------------------

  /** Position of the first `c` in `s`, or `|s|` when there is none. */
  function IndexOf(s: string, c: char): (i: nat)
    ensures i <= |s| && (i < |s| ==> s[i] == c)
    ensures forall k :: 0 <= k < i ==> s[k] != c
  {
    if s == [] || s[0] == c then 0 else 1 + IndexOf(s[1..], c)
  }

  /** JavaScript's `s.split(sep)` for a one-character separator. */
  function Split(s: string, sep: char): (parts: seq<string>)
    ensures |parts| >= 1
    ensures forall k :: 0 <= k < |parts| ==> sep !in parts[k]
    decreases |s|
  {
    var i := IndexOf(s, sep);
    if i == |s| then
      assert forall k :: 0 <= k < |s| ==> s[k] != sep;
      [s]
    else
      assert forall k :: 0 <= k < |s[..i]| ==> s[..i][k] != sep;
      [s[..i]] + Split(s[i + 1..], sep)
  }

  /** JavaScript's `parts.join(sep)`. */
  function Join(parts: seq<string>, sep: char): string
    requires |parts| >= 1
  {
    if |parts| == 1 then parts[0] else parts[0] + [sep] + Join(parts[1..], sep)
  }

  /** Splitting undoes joining when no part contains the separator. */
  lemma {:induction false} SplitJoin(parts: seq<string>, sep: char)
    requires |parts| >= 1
    requires forall k :: 0 <= k < |parts| ==> sep !in parts[k]
    ensures Split(Join(parts, sep), sep) == parts
  {
    var a := parts[0];
    if |parts| == 1 {
      assert forall k :: 0 <= k < |a| ==> a[k] != sep;
      assert IndexOf(a, sep) == |a|;
    } else {
      var rest := Join(parts[1..], sep);
      var s := a + [sep] + rest;
      var i := IndexOf(s, sep);
      assert s[|a|] == sep;
      assert forall k :: 0 <= k < |a| ==> s[k] == a[k] && a[k] != sep;
      assert i == |a|;
      assert s[..i] == a;
      assert s[i + 1..] == rest;
      SplitJoin(parts[1..], sep);
    }
  }

  /** Joining undoes splitting. */
  lemma {:induction false} JoinSplit(s: string, sep: char)
    ensures Join(Split(s, sep), sep) == s
    decreases |s|
  {
    var i := IndexOf(s, sep);
    if i < |s| {
      var parts := Split(s[i + 1..], sep);
      assert Split(s, sep) == [s[..i]] + parts;
      JoinSplit(s[i + 1..], sep);
      assert Join([s[..i]] + parts, sep) == s[..i] + [sep] + Join(parts, sep);
      assert s == s[..i] + [sep] + s[i + 1..];
    } else {
      assert Split(s, sep) == [s];
    }
  }

  // ---------------------------------------------------------------------------
  // ASCII case conversion
  // ---------------------------------------------------------------------------

  function ToUpperChar(c: char): char {
    if 'a' <= c <= 'z' then (c as int - 32) as char else c
  }

  function ToLowerChar(c: char): char {
    if 'A' <= c <= 'Z' then (c as int + 32) as char else c
  }

  /** `toUpperCase()` restricted to ASCII letters. */
  function ToUpper(s: string): (r: string)
    ensures |r| == |s| && forall i :: 0 <= i < |s| ==> r[i] == ToUpperChar(s[i])
  {
    seq(|s|, i requires 0 <= i < |s| => ToUpperChar(s[i]))
  }

  /** `toLowerCase()` restricted to ASCII letters. */
  function ToLower(s: string): (r: string)
    ensures |r| == |s| && forall i :: 0 <= i < |s| ==> r[i] == ToLowerChar(s[i])
  {
    seq(|s|, i requires 0 <= i < |s| => ToLowerChar(s[i]))
  }

  lemma ToUpperIdempotent(s: string)
    ensures ToUpper(ToUpper(s)) == ToUpper(s)
  {
  }
}
