/** String helpers shared by the model: JavaScript's `trim`, `toLowerCase`
    (ASCII letters only), `includes`, `startsWith`, `endsWith`, decimal
    rendering and `padStart`. Strings are sequences of Unicode scalar
    values; JavaScript's `length`, which counts UTF-16 code units, is
    `Utf16Length`. */
module Text {
  import opened Wrappers

  /** The characters JavaScript's `trim` and Python's `strip` remove
      (the ASCII ones; other Unicode spaces are not modelled). */
  predicate IsSpace(c: char) {
    c == ' ' || c == '\t' || c == '\n' || c == '\r' || c as int == 11 || c as int == 12
  }

  predicate IsDigit(c: char) {
    '0' <= c <= '9'
  }

  /** `s.trim()`: spaces are removed from both ends. */
  function Trim(s: string): (r: string)
    ensures |r| <= |s|
    ensures r == [] || (!IsSpace(r[0]) && !IsSpace(r[|r| - 1]))
  {
    if s == [] then s
    else if IsSpace(s[0]) then Trim(s[1..])
    else if IsSpace(s[|s| - 1]) then Trim(s[..|s| - 1])
    else s
  }

  /** A character outside the Basic Multilingual Plane: UTF-16 writes it
      as a surrogate pair. */
  predicate IsAstral(c: char) {
    c as int >= 0x10000
  }

  /** JavaScript's `s.length`: UTF-16 code units, one per character of the
      Basic Multilingual Plane and two for any other. */
  function Utf16Length(s: string): (n: nat)
    ensures |s| <= n <= 2 * |s|
    ensures n == |s| <==> forall k :: 0 <= k < |s| ==> !IsAstral(s[k])
    ensures n == 2 * |s| <==> forall k :: 0 <= k < |s| ==> IsAstral(s[k])
  {
    if s == [] then 0
    else
      var init := s[..|s| - 1];
      assert forall k :: 0 <= k < |init| ==> init[k] == s[k];
      Utf16Length(init) + (if IsAstral(s[|s| - 1]) then 2 else 1)
  }

  /** `!s.trim()`: the string holds nothing but spaces. */
  predicate IsBlank(s: string) {
    Trim(s) == []
  }

  function LowerChar(c: char): (r: char)
    ensures 'A' <= c <= 'Z' ==> 'a' <= r <= 'z'
    ensures !('A' <= c <= 'Z') ==> r == c
  {
    if 'A' <= c <= 'Z' then (c as int + 32) as char else c
  }

  function UpperChar(c: char): (r: char)
    ensures 'a' <= c <= 'z' ==> 'A' <= r <= 'Z'
    ensures !('a' <= c <= 'z') ==> r == c
  {
    if 'a' <= c <= 'z' then (c as int - 32) as char else c
  }

  /** `s.toLowerCase()` on ASCII letters. */
  function Lower(s: string): (r: string)
    ensures |r| == |s|
    ensures forall i :: 0 <= i < |s| ==> r[i] == LowerChar(s[i])
  {
    seq(|s|, i requires 0 <= i < |s| => LowerChar(s[i]))
  }

  /** `s.toUpperCase()` on ASCII letters. */
  function Upper(s: string): (r: string)
    ensures |r| == |s|
    ensures forall i :: 0 <= i < |s| ==> r[i] == UpperChar(s[i])
  {
    seq(|s|, i requires 0 <= i < |s| => UpperChar(s[i]))
  }

  predicate StartsWith(s: string, prefix: string) {
    |prefix| <= |s| && s[..|prefix|] == prefix
  }

  predicate EndsWith(s: string, suffix: string) {
    |suffix| <= |s| && s[|s| - |suffix|..] == suffix
  }

  /** `hay.includes(needle)` */
  predicate Contains(hay: string, needle: string) {
    exists i :: 0 <= i <= |hay| && OccursAt(hay, needle, i)
  }

  predicate OccursAt(hay: string, needle: string, i: int) {
    0 <= i <= |hay| - |needle| && hay[i..i + |needle|] == needle
  }

  lemma EmptyIsContained(hay: string)
    ensures Contains(hay, [])
  {
    assert 0 <= 0 <= |hay| && OccursAt(hay, [], 0);
  }

  /** Case-insensitive containment, as `a.toLowerCase().includes(b.toLowerCase())`. */
  predicate ContainsIgnoringCase(hay: string, needle: string) {
    Contains(Lower(hay), Lower(needle))
  }

  function DigitChar(d: nat): (c: char)
    requires d < 10
    ensures IsDigit(c)
  {
    ('0' as int + d) as char
  }

  /** `String(n)` for a natural number. */
  function NatToString(n: nat): (r: string)
    ensures |r| >= 1
    ensures forall i :: 0 <= i < |r| ==> IsDigit(r[i])
    decreases n
  {
    if n < 10 then [DigitChar(n)] else NatToString(n / 10) + [DigitChar(n % 10)]
  }

  function DigitValue(c: char): (d: nat)
    requires IsDigit(c)
    ensures d < 10
  {
    c as int - '0' as int
  }

  /** `String(n)` / `n.toString()` for an integer. */
  function IntToString(n: int): (r: string)
    ensures |r| >= 1
    ensures n >= 0 ==> r == NatToString(n)
    ensures n < 0 ==> r == "-" + NatToString(-n)
  {
    if n < 0 then "-" + NatToString(-n) else NatToString(n)
  }

  /** The value of a string of decimal digits. */
  function DigitsValue(s: string): (v: nat)
    requires forall i :: 0 <= i < |s| ==> IsDigit(s[i])
  {
    if s == [] then 0 else 10 * DigitsValue(s[..|s| - 1]) + DigitValue(s[|s| - 1])
  }

  lemma {:induction false} NatToStringValue(n: nat)
    ensures DigitsValue(NatToString(n)) == n
    decreases n
  {
    var r := NatToString(n);
    if n >= 10 {
      NatToStringValue(n / 10);
      assert r[..|r| - 1] == NatToString(n / 10);
    }
  }

  /** `s.padStart(width, c)` */
  function PadStart(s: string, width: nat, c: char): (r: string)
    ensures |r| == if |s| >= width then |s| else width
    ensures EndsWith(r, s)
    ensures forall i :: 0 <= i < |r| - |s| ==> r[i] == c
  {
    if |s| >= width then s else seq(width - |s|, _ => c) + s
  }

  /** `s.split(sep)` for a one-character separator: always at least one part,
      and the parts joined back with `sep` give `s`. */
  function Split(s: string, sep: char): (parts: seq<string>)
    ensures |parts| >= 1
  {
    if sep !in s then [s]
    else
      var i := IndexOf(s, sep);
      [s[..i]] + Split(s[i + 1..], sep)
  }

  function IndexOf(s: string, c: char): (i: nat)
    requires c in s
    ensures i < |s| && s[i] == c && c !in s[..i]
  {
    if s[0] == c then 0 else 1 + IndexOf(s[1..], c)
  }

  /** `parts.join(sep)` */
  function Join(parts: seq<string>, sep: char): string {
    if parts == [] then []
    else if |parts| == 1 then parts[0]
    else parts[0] + [sep] + Join(parts[1..], sep)
  }

  /** Splitting what was joined gives the parts back, when no part holds
      the separator. */
  lemma {:induction false} SplitJoin(parts: seq<string>, sep: char)
    requires |parts| >= 1
    requires forall k :: 0 <= k < |parts| ==> sep !in parts[k]
    ensures Split(Join(parts, sep), sep) == parts
  {
    if |parts| > 1 {
      var s := Join(parts, sep);
      var rest := Join(parts[1..], sep);
      assert s == parts[0] + [sep] + rest;
      assert sep in s by {
        assert s[|parts[0]|] == sep;
      }
      IndexAfter(parts[0], sep, rest);
      assert s[..|parts[0]|] == parts[0];
      assert s[|parts[0]| + 1..] == rest;
      SplitJoin(parts[1..], sep);
    } else {
      assert Join(parts, sep) == parts[0];
    }
  }

  /** Four colon-free parts joined and split again. */
  lemma SplitJoin4(a: string, b: string, c: string, d: string, sep: char)
    requires sep !in a && sep !in b && sep !in c && sep !in d
    ensures Split(Join([a, b, c, d], sep), sep) == [a, b, c, d]
  {
    SplitJoin([a, b, c, d], sep);
  }

  lemma Join4(a: string, b: string, c: string, d: string, sep: char)
    ensures Join([a, b, c, d], sep) == a + [sep] + b + [sep] + c + [sep] + d
  {
    assert [a, b, c, d][1..] == [b, c, d];
    assert [b, c, d][1..] == [c, d];
    assert [c, d][1..] == [d];
    assert Join([d], sep) == d;
    assert Join([c, d], sep) == c + [sep] + d;
    assert Join([b, c, d], sep) == b + [sep] + c + [sep] + d;
  }

  lemma IndexAfter(a: string, sep: char, b: string)
    requires sep !in a
    ensures sep in a + [sep] + b && IndexOf(a + [sep] + b, sep) == |a|
  {
    var s := a + [sep] + b;
    assert s[|a|] == sep;
  }

  predicate AllDigits(s: string) {
    forall i :: 0 <= i < |s| ==> IsDigit(s[i])
  }

  /** Leading zeros do not change a digit string's value. */
  lemma {:induction false} LeadingZeros(z: nat, s: string)
    requires AllDigits(s)
    ensures AllDigits(seq(z, _ => '0') + s)
    ensures DigitsValue(seq(z, _ => '0') + s) == DigitsValue(s)
  {
    var t := seq(z, _ => '0') + s;
    if s == [] {
      assert t == seq(z, _ => '0');
      ZerosValue(z);
    } else {
      LeadingZeros(z, s[..|s| - 1]);
      assert t[..|t| - 1] == seq(z, _ => '0') + s[..|s| - 1];
    }
  }

  lemma {:induction false} ZerosValue(z: nat)
    ensures AllDigits(seq(z, _ => '0')) && DigitsValue(seq(z, _ => '0')) == 0
  {
    if z > 0 {
      ZerosValue(z - 1);
      assert seq(z, _ => '0')[..z - 1] == seq(z - 1, _ => '0');
    }
  }

  /** `Number(s)` for a string that is blank (0) or an optionally signed
      decimal integer; anything else gives `None`, JavaScript's `NaN`. */
  function JsNumber(s: string): Option<int> {
    NumberText(Trim(s))
  }

  /** `Number` on a string already trimmed: blank is 0, an optional sign
      is followed by digits only. */
  function NumberText(t: string): (r: Option<int>)
  {
    if t == [] then Some(0)
    else if t[0] == '-' then
      match Unsigned(t[1..])
      case None => None
      case Some(v) => Some(0 - v)
    else if t[0] == '+' then Unsigned(t[1..])
    else Unsigned(t)
  }

  /** The value of a non-empty string of digits, `None` otherwise. */
  function Unsigned(u: string): (r: Option<int>)
    ensures r.Some? ==> r.value >= 0
  {
    if u == [] || !IsDigit(u[|u| - 1]) then None
    else if |u| == 1 then Some(DigitValue(u[0]))
    else
      match Unsigned(u[..|u| - 1])
      case None => None
      case Some(v) => Some(10 * v + DigitValue(u[|u| - 1]))
  }

  lemma {:induction false} UnsignedDigits(u: string)
    requires AllDigits(u) && u != []
    ensures Unsigned(u) == Some(DigitsValue(u))
  {
    if |u| > 1 {
      UnsignedDigits(u[..|u| - 1]);
    } else {
      assert u[..0] == [];
    }
  }

  /** A string of digits has nothing to trim. */
  lemma DigitsTrimmed(s: string)
    requires AllDigits(s)
    ensures Trim(s) == s
  {
    if s != [] {
      assert !IsSpace(s[0]) && !IsSpace(s[|s| - 1]);
    }
  }

  /** `Number` of a string of digits is its value. */
  lemma NumberOfDigits(s: string)
    requires AllDigits(s) && s != []
    ensures JsNumber(s) == Some(DigitsValue(s))
  {
    DigitsTrimmed(s);
    UnsignedDigits(s);
  }

  /** The length of the run of digits `s` starts with. */
  function DigitRun(s: string): (n: nat)
    ensures n <= |s|
    ensures n < |s| ==> !IsDigit(s[n])
  {
    if s == [] || !IsDigit(s[0]) then 0 else 1 + DigitRun(s[1..])
  }

  lemma {:induction false} DigitRunDigits(s: string)
    ensures AllDigits(s[..DigitRun(s)])
  {
    if s != [] && IsDigit(s[0]) {
      DigitRunDigits(s[1..]);
      assert s[..DigitRun(s)] == [s[0]] + s[1..][..DigitRun(s[1..])];
    }
  }

  /** A string of digits followed by a non-digit has exactly that run. */
  lemma {:induction false} DigitRunOf(d: string, rest: string)
    requires AllDigits(d)
    requires rest == [] || !IsDigit(rest[0])
    ensures DigitRun(d + rest) == |d|
  {
    if d != [] {
      assert (d + rest)[1..] == d[1..] + rest;
      DigitRunOf(d[1..], rest);
    }
  }

  /** The length of the run of spaces `s` starts with. */
  function SpaceRun(s: string): (n: nat)
    ensures n <= |s|
    ensures n < |s| ==> !IsSpace(s[n])
  {
    if s == [] || !IsSpace(s[0]) then 0 else 1 + SpaceRun(s[1..])
  }

  /** `parseInt(s, 10)`: leading spaces and a sign are skipped and the
      leading digits are read; `None` (JavaScript's `NaN`) without digits. */
  function ParseInt(s: string): (r: Option<int>)
    ensures r.Some? ==> DigitRun(UnsignedPart(s[SpaceRun(s)..])) > 0
  {
    var t := s[SpaceRun(s)..];
    var u := UnsignedPart(t);
    var d := DigitRun(u);
    if d == 0 then None
    else
      DigitRunDigits(u);
      var v: int := DigitsValue(u[..d]);
      Some(if t != [] && t[0] == '-' then -v else v)
  }

  function UnsignedPart(t: string): string {
    if t != [] && (t[0] == '-' || t[0] == '+') then t[1..] else t
  }

  /** `parseInt` reads back a rendered natural number, whatever non-digit
      text follows it. */
  lemma ParseIntOfNat(n: nat, rest: string)
    requires rest == [] || !IsDigit(rest[0])
    ensures ParseInt(NatToString(n) + rest) == Some(n)
  {
    var s := NatToString(n) + rest;
    assert !IsSpace(s[0]) && s[0] != '-' && s[0] != '+';
    assert s[SpaceRun(s)..] == s;
    DigitRunOf(NatToString(n), rest);
    assert s[..|NatToString(n)|] == NatToString(n);
    NatToStringValue(n);
  }

  /** `s.toLowerCase().startsWith(prefix)` for a lower-case `prefix`. */
  predicate StartsWithIgnoringCase(s: string, prefix: string) {
    |prefix| <= |s| && Lower(s[..|prefix|]) == prefix
  }
}
