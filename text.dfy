/**
 * The string behaviour of Python that the modelled code relies on: `str.strip()`,
 * `str.isdigit()`, `int(str)`, `str(int)`, the `%0Nd` format, `str.split(sep, 1)`,
 * `str.replace`, ASCII case mapping and code-point ordering of strings.
 */
module Text {
  import opened Wrappers

  /** The characters for which Python's `str.isspace()` holds. */
  predicate IsSpace(c: char) {
    if c <= ' ' then c == ' ' || ('\t' <= c <= '\r') || ('\U{1C}' <= c <= '\U{1F}')
    else if c < '\U{85}' then false
    else (c == '\U{85}' || c == '\U{A0}' || c == '\U{1680}' || ('\U{2000}' <= c <= '\U{200A}')
          || c == '\U{2028}' || c == '\U{2029}' || c == '\U{202F}' || c == '\U{205F}' || c == '\U{3000}')
  }

  /** The number of white-space characters at the start of `s`. */
  function LeadingSpace(s: string): (k: nat)
    ensures k <= |s|
  {
    if s == [] || !IsSpace(s[0]) then 0 else 1 + LeadingSpace(s[1..])
  }

  /** The length of `s` once white space at its end is dropped. */
  function TrailingKeep(s: string): (k: nat)
    ensures k <= |s|
  {
    if s == [] || !IsSpace(s[|s| - 1]) then |s| else TrailingKeep(s[..|s| - 1])
  }

  /** `s.strip()` */
  function Strip(s: string): string {
    var l := s[LeadingSpace(s)..];
    l[..TrailingKeep(l)]
  }

  /** Only white space is skipped at the start, and the first kept character is not white space. */
  lemma {:induction false} LeadingSpaceSpec(s: string)
    ensures forall i :: 0 <= i < LeadingSpace(s) ==> IsSpace(s[i])
    ensures LeadingSpace(s) < |s| ==> !IsSpace(s[LeadingSpace(s)])
  {
    if s != [] && IsSpace(s[0]) {
      LeadingSpaceSpec(s[1..]);
    }
  }

  /** Only white space is dropped at the end, and the last kept character is not white space. */
  lemma {:induction false} TrailingKeepSpec(s: string)
    ensures forall i :: TrailingKeep(s) <= i < |s| ==> IsSpace(s[i])
    ensures TrailingKeep(s) > 0 ==> !IsSpace(s[TrailingKeep(s) - 1])
  {
    if s != [] && IsSpace(s[|s| - 1]) {
      TrailingKeepSpec(s[..|s| - 1]);
    }
  }

  /** The result of `strip()` neither starts nor ends with white space. */
  lemma StripEndsClean(s: string)
    ensures var t := Strip(s); t == [] || (!IsSpace(t[0]) && !IsSpace(t[|t| - 1]))
  {
    var l := s[LeadingSpace(s)..];
    LeadingSpaceSpec(s);
    TrailingKeepSpec(l);
  }

  /** A string that neither starts nor ends with white space is its own strip. */
  lemma StripUnchanged(s: string)
    requires s == [] || (!IsSpace(s[0]) && !IsSpace(s[|s| - 1]))
    ensures Strip(s) == s
  {
    assert LeadingSpace(s) == 0;
    assert s[0..] == s;
    assert TrailingKeep(s) == |s|;
  }

  /** `s.strip().strip() == s.strip()` */
  lemma StripIdempotent(s: string)
    ensures Strip(Strip(s)) == Strip(s)
  {
    StripEndsClean(s);
    StripUnchanged(Strip(s));
  }

  predicate IsDigit(c: char) {
    '0' <= c <= '9'
  }

  predicate AllDigits(s: string) {
    forall i :: 0 <= i < |s| ==> IsDigit(s[i])
  }

  /** `s.isdigit()` for ASCII digits: non-empty and made only of digits. */
  predicate IsDigits(s: string) {
    |s| > 0 && AllDigits(s)
  }

  function DigitChar(d: nat): char
    requires d < 10
  {
    ('0' as int + d) as char
  }

  /** The value of a string of decimal digits, read most significant digit first. */
  function DigitsValue(s: string): nat
    requires AllDigits(s)
  {
    if s == [] then 0 else DigitsValue(s[..|s| - 1]) * 10 + (s[|s| - 1] as int - '0' as int)
  }

  /** The decimal digits of `n` without leading zeros: Python's `str(n)` for `n >= 0`. */
  function Decimal(n: nat): (r: string)
    ensures IsDigits(r)
    ensures DigitsValue(r) == n
    ensures r[0] == '0' ==> n == 0 && |r| == 1
    decreases n
  {
    if n < 10 then [DigitChar(n)]
    else
      var prefix := Decimal(n / 10);
      var r := prefix + [DigitChar(n % 10)];
      assert r[..|r| - 1] == prefix;
      r
  }

  function Zeros(k: nat): (r: string)
    ensures |r| == k && AllDigits(r)
  {
    seq(k, _ => '0')
  }

  /** Leading zeros do not change the value of a digit string. */
  lemma {:induction false} LeadingZeros(k: nat, s: string)
    requires AllDigits(s)
    ensures AllDigits(Zeros(k) + s)
    ensures DigitsValue(Zeros(k) + s) == DigitsValue(s)
  {
    var z := Zeros(k) + s;
    if s == [] {
      assert z == Zeros(k);
      ZerosValue(k);
    } else {
      assert z[..|z| - 1] == Zeros(k) + s[..|s| - 1];
      LeadingZeros(k, s[..|s| - 1]);
    }
  }

  lemma {:induction false} ZerosValue(k: nat)
    ensures DigitsValue(Zeros(k)) == 0
  {
    if k > 0 {
      assert Zeros(k)[..k - 1] == Zeros(k - 1);
      ZerosValue(k - 1);
    }
  }

  /** Python's `f"{i:0{width}d}"`: minus sign first, then digits zero-padded to `width` characters in all. */
  function PadInt(i: int, width: nat): string {
    var digits := Decimal(if i < 0 then -i else i);
    if i < 0 then "-" + Zeros(if width > |digits| + 1 then width - |digits| - 1 else 0) + digits
    else Zeros(if width > |digits| then width - |digits| else 0) + digits
  }

  /** Python's `str(i)`. */
  function IntToString(i: int): string {
    PadInt(i, 0)
  }

  /** The digit body accepted by `int()`: digits with single underscores between them. */
  predicate IsIntBody(b: string) {
    && |b| > 0
    && IsDigit(b[0]) && IsDigit(b[|b| - 1])
    && (forall i :: 0 <= i < |b| ==> IsDigit(b[i]) || b[i] == '_')
    && NoDoubleUnderscore(b)
  }

  predicate NoDoubleUnderscore(b: string) {
    |b| < 2 || (!(b[0] == '_' && b[1] == '_') && NoDoubleUnderscore(b[1..]))
  }

  function RemoveUnderscores(b: string): (r: string)
    requires forall i :: 0 <= i < |b| ==> IsDigit(b[i]) || b[i] == '_'
    ensures AllDigits(r)
  {
    if b == [] then []
    else (if b[0] == '_' then [] else [b[0]]) + RemoveUnderscores(b[1..])
  }

  lemma {:induction false} RemoveUnderscoresDigits(b: string)
    requires AllDigits(b)
    ensures RemoveUnderscores(b) == b
    ensures NoDoubleUnderscore(b)
  {
    if b != [] {
      RemoveUnderscoresDigits(b[1..]);
    }
  }

  function BodyValue(b: string): nat
    requires IsIntBody(b)
  {
    DigitsValue(RemoveUnderscores(b))
  }

  /**
   * Python's `int(s)` for a string: surrounding white space is ignored, one optional
   * sign, then a digit body; anything else raises `ValueError`, modelled as `None`.
   */
  function ParseInt(s: string): Option<int> {
    ParseStripped(Strip(s))
  }

  function ParseStripped(t: string): Option<int> {
    if |t| > 0 && (t[0] == '+' || t[0] == '-') then
      if IsIntBody(t[1..]) then Some(if t[0] == '-' then 0 - BodyValue(t[1..]) else BodyValue(t[1..]))
      else None
    else if IsIntBody(t) then Some(BodyValue(t))
    else None
  }

  /** `int(str(i)) == i` */
  lemma IntToStringRoundTrip(i: int)
    ensures ParseInt(IntToString(i)) == Some(i)
  {
    if i < 0 {
      NegativeRoundTrip(-i);
    } else {
      var d := Decimal(i);
      assert IntToString(i) == Zeros(0) + d == d;
      UnsignedRoundTrip(d);
    }
  }

  lemma UnsignedRoundTrip(d: string)
    requires IsDigits(d)
    ensures ParseInt(d) == Some(DigitsValue(d) as int)
  {
    DigitsBody(d);
    DigitNotSpace(d[0]);
    DigitNotSpace(d[|d| - 1]);
    StripUnchanged(d);
    assert ParseInt(d) == ParseStripped(d);
    assert !(d[0] == '+' || d[0] == '-');
  }

  lemma NegativeRoundTrip(n: nat)
    requires n > 0
    ensures ParseInt(IntToString(0 - n)) == Some(0 - n)
  {
    var d := Decimal(n);
    var t := "-" + d;
    assert IntToString(0 - n) == t by {
      assert Zeros(0) == [];
    }
    NegativeStripped(d);
    NegativeBody(d);
  }

  lemma NegativeStripped(d: string)
    requires IsDigits(d)
    ensures Strip("-" + d) == "-" + d
  {
    DigitNotSpace(d[|d| - 1]);
    StripUnchanged("-" + d);
  }

  lemma NegativeBody(d: string)
    requires IsDigits(d)
    ensures ParseStripped("-" + d) == Some(0 - DigitsValue(d))
  {
    var t := "-" + d;
    assert t[0] == '-' && t[1..] == d;
    DigitsBody(d);
    assert IsIntBody(t[1..]) && BodyValue(t[1..]) == DigitsValue(d);
  }

  lemma DigitNotSpace(c: char)
    requires IsDigit(c)
    ensures !IsSpace(c)
  {
  }

  /** A digit string is a valid `int()` body whose value is its digit value. */
  lemma DigitsBody(d: string)
    requires IsDigits(d)
    ensures IsIntBody(d) && BodyValue(d) == DigitsValue(d)
  {
    RemoveUnderscoresDigits(d);
  }

  /** A zero-padded non-negative number reads back as itself. */
  lemma PadIntRoundTrip(n: nat, width: nat)
    ensures IsDigits(PadInt(n, width))
    ensures DigitsValue(PadInt(n, width)) == n
  {
    var d := Decimal(n);
    LeadingZeros(if width > |d| then width - |d| else 0, d);
  }

  function Pow10(k: nat): nat {
    if k == 0 then 1 else 10 * Pow10(k - 1)
  }

  /** A number below `10^k` has at most `k` decimal digits. */
  lemma {:induction false} DecimalLength(n: nat, k: nat)
    requires 1 <= k && n < Pow10(k)
    ensures |Decimal(n)| <= k
  {
    assert Pow10(1) == 10;
    if n >= 10 {
      DecimalLength(n / 10, k - 1);
    }
  }

  /** Zero padding to `width` gives exactly `width` characters when the number fits. */
  lemma PadIntLength(n: nat, width: nat)
    requires 1 <= width && n < Pow10(width)
    ensures |PadInt(n, width)| == width
  {
    DecimalLength(n, width);
  }

  function LowerChar(c: char): char {
    if 'A' <= c <= 'Z' then (c as int + 32) as char else c
  }

  function UpperChar(c: char): char {
    if 'a' <= c <= 'z' then (c as int - 32) as char else c
  }

  /** `s.lower()` on ASCII letters. */
  function Lower(s: string): string {
    seq(|s|, i requires 0 <= i < |s| => LowerChar(s[i]))
  }

  /** `s.upper()` on ASCII letters. */
  function Upper(s: string): string {
    seq(|s|, i requires 0 <= i < |s| => UpperChar(s[i]))
  }

  /** A string without lower-case ASCII letters is its own upper case. */
  lemma UpperKeeps(s: string)
    requires forall i :: 0 <= i < |s| ==> !('a' <= s[i] <= 'z')
    ensures Upper(s) == s
  {
  }

  /** Case mapping touches only ASCII letters, so it keeps white space and non-space apart. */
  lemma LowerKeepsSpace(c: char)
    ensures IsSpace(LowerChar(c)) <==> IsSpace(c)
  {
  }

  /** A stripped string stays stripped when lowercased, and lowering twice is lowering once. */
  lemma LowerStripped(s: string)
    requires Strip(s) == s
    ensures Strip(Lower(s)) == Lower(s)
    ensures Lower(Lower(s)) == Lower(s)
  {
    var t := Lower(s);
    if s != [] {
      StripEnds(s);
      LowerKeepsSpace(s[0]);
      LowerKeepsSpace(s[|s| - 1]);
      assert t[0] == LowerChar(s[0]) && t[|t| - 1] == LowerChar(s[|s| - 1]);
      StripUnchanged(t);
    }
  }

  /** Likewise for upper case. */
  lemma UpperStripped(s: string)
    requires Strip(s) == s
    ensures Strip(Upper(s)) == Upper(s)
  {
    var t := Upper(s);
    if s != [] {
      StripEnds(s);
      assert t[0] == UpperChar(s[0]) && t[|t| - 1] == UpperChar(s[|s| - 1]);
      StripUnchanged(t);
    }
  }

  /** A non-empty stripped string neither starts nor ends with white space. */
  lemma StripEnds(s: string)
    requires Strip(s) == s && s != []
    ensures !IsSpace(s[0]) && !IsSpace(s[|s| - 1])
  {
    StripEndsClean(s);
  }

  /** The first index of `c` in `s`. */
  function IndexOf(s: string, c: char): (r: Option<nat>)
    ensures r.Some? ==> r.value < |s| && s[r.value] == c && forall j :: 0 <= j < r.value ==> s[j] != c
    ensures r.None? <==> c !in s
  {
    if s == [] then None
    else if s[0] == c then Some(0)
    else match IndexOf(s[1..], c)
      case None => None
      case Some(k) => Some(k + 1)
  }

  /** `head, tail = s.split(c, 1)`: `None` when `c` does not occur (the unpacking raises). */
  function SplitOnce(s: string, c: char): (r: Option<(string, string)>)
    ensures r.Some? <==> c in s
    ensures r.Some? ==> c !in r.value.0 && s == r.value.0 + [c] + r.value.1
  {
    match IndexOf(s, c)
    case None => None
    case Some(k) =>
      assert s == s[..k] + [c] + s[k + 1..];
      Some((s[..k], s[k + 1..]))
  }

  predicate OccursAt(s: string, pat: string, i: nat) {
    i + |pat| <= |s| && s[i..i + |pat|] == pat
  }

  /** `pat in s` for strings. */
  predicate Contains(s: string, pat: string) {
    exists i :: 0 <= i <= |s| - |pat| && OccursAt(s, pat, i)
  }

  /** `s.replace(pat, rep)`: left to right, non-overlapping. */
  function ReplaceAll(s: string, pat: string, rep: string): string
    requires |pat| > 0
    decreases |s|
  {
    if |s| < |pat| then s
    else if s[..|pat|] == pat then rep + ReplaceAll(s[|pat|..], pat, rep)
    else [s[0]] + ReplaceAll(s[1..], pat, rep)
  }

  /** Replacing a pattern that does not occur changes nothing. */
  lemma {:induction false} ReplaceAbsent(s: string, pat: string, rep: string)
    requires |pat| > 0 && !Contains(s, pat)
    ensures ReplaceAll(s, pat, rep) == s
  {
    if |s| >= |pat| {
      assert !OccursAt(s, pat, 0);
      assert s[..|pat|] != pat;
      forall i | 0 <= i <= |s[1..]| - |pat|
        ensures !OccursAt(s[1..], pat, i)
      {
        assert !OccursAt(s, pat, i + 1);
        assert s[1..][i..i + |pat|] == s[i + 1..i + 1 + |pat|];
      }
      ReplaceAbsent(s[1..], pat, rep);
    }
  }

  /** Replacing a string that is exactly the pattern gives the replacement. */
  lemma ReplaceWhole(pat: string, rep: string)
    requires |pat| > 0
    ensures ReplaceAll(pat, pat, rep) == rep
  {
    assert pat[..|pat|] == pat;
    assert pat[|pat|..] == [];
  }

  /** `s.split(c)` for a one-character separator: the pieces between separators, at least one. */
  function Split(s: string, c: char): (r: seq<string>)
    ensures |r| >= 1
    ensures forall k :: 0 <= k < |r| ==> c !in r[k]
    decreases |s|
  {
    match SplitOnce(s, c)
    case None => [s]
    case Some((a, b)) => [a] + Split(b, c)
  }

  /** The first separator is the one right after a separator-free prefix. */
  lemma SplitOnceConcat(a: string, c: char, b: string)
    requires c !in a
    ensures SplitOnce(a + [c] + b, c) == Some((a, b))
  {
    var s := a + [c] + b;
    var r := SplitOnce(s, c);
    assert s[|a|] == c;
    var a', b' := r.value.0, r.value.1;
    assert forall i :: 0 <= i < |a| ==> s[i] == a[i] && s[i] != c;
    assert forall i :: 0 <= i < |a'| ==> s[i] == a'[i] && s[i] != c;
    assert s[|a'|] == c;
    assert a' == s[..|a|] == a;
    assert b' == s[|a| + 1..] == b;
  }

  lemma SplitConcat(a: string, c: char, b: string)
    requires c !in a
    ensures Split(a + [c] + b, c) == [a] + Split(b, c)
  {
    SplitOnceConcat(a, c, b);
  }

  /** Joining the pieces with the separator gives back the string. */
  lemma {:induction false} SplitJoin(s: string, c: char)
    ensures Join(Split(s, c), [c]) == s
    decreases |s|
  {
    match SplitOnce(s, c)
    case None =>
    case Some((a, b)) =>
      SplitJoin(b, c);
  }

  /** `sep.join(parts)` */
  function Join(parts: seq<string>, sep: string): string {
    if parts == [] then ""
    else if |parts| == 1 then parts[0]
    else parts[0] + sep + Join(parts[1..], sep)
  }

  /** Python's `a < b` on strings: lexicographic by code point. */
  predicate StrLt(a: string, b: string) {
    if a == [] then b != []
    else if b == [] then false
    else if a[0] != b[0] then a[0] < b[0]
    else StrLt(a[1..], b[1..])
  }

  lemma {:induction false} StrLtIrreflexive(a: string)
    ensures !StrLt(a, a)
  {
    if a != [] {
      StrLtIrreflexive(a[1..]);
    }
  }

  lemma {:induction false} StrLtTotal(a: string, b: string)
    ensures a == b || StrLt(a, b) || StrLt(b, a)
  {
    if a != [] && b != [] && a[0] == b[0] {
      StrLtTotal(a[1..], b[1..]);
      if a[1..] == b[1..] {
        assert a == [a[0]] + a[1..] && b == [b[0]] + b[1..];
      }
    }
  }

  lemma {:induction false} StrLtTransitive(a: string, b: string, c: string)
    requires StrLt(a, b) && StrLt(b, c)
    ensures StrLt(a, c)
  {
    if a != [] && b != [] && c != [] && a[0] == b[0] && b[0] == c[0] {
      StrLtTransitive(a[1..], b[1..], c[1..]);
    }
  }

  lemma {:induction false} StrLtAsymmetric(a: string, b: string)
    ensures !(StrLt(a, b) && StrLt(b, a))
  {
    if a != [] && b != [] && a[0] == b[0] {
      StrLtAsymmetric(a[1..], b[1..]);
    }
  }
}
