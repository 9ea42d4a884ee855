/**
 * The string operations the core relies on: decimal digits and the `\d+`
 * matches of a string, number formatting as JavaScript template literals
 * print integers, `includes`, ASCII `toLowerCase`, `trim`, `indexOf`,
 * `lastIndexOf` and `filter(Boolean).join(sep)`.
 */
module Text {
  import Seqs

  predicate IsDigit(c: char) {
    '0' <= c <= '9'
  }

  predicate AllDigits(s: string) {
    forall i :: 0 <= i < |s| ==> IsDigit(s[i])
  }

  function DigitValue(c: char): nat
    requires IsDigit(c)
  {
    (c as int) - ('0' as int)
  }

  function DigitChar(d: nat): (c: char)
    requires d < 10
    ensures IsDigit(c) && DigitValue(c) == d
  {
    (('0' as int) + d) as char
  }

  /** What `Number` makes of one `\d+` match: its value in base ten. */
  function DigitsValue(s: string): nat
    requires AllDigits(s)
  {
    if s == [] then 0 else DigitsValue(s[..|s| - 1]) * 10 + DigitValue(s[|s| - 1])
  }

  /** Decimal form of a natural number, without leading zeros. */
  function NatToString(n: nat): (r: string)
    ensures |r| > 0 && AllDigits(r)
    ensures DigitsValue(r) == n
    ensures r[0] == '0' ==> n == 0
  {
    if n < 10 then
      [DigitChar(n)]
    else
      var r := NatToString(n / 10) + [DigitChar(n % 10)];
      assert r[..|r| - 1] == NatToString(n / 10);
      r
  }

  /** `${i}` for an integer `i`. */
  function IntToString(i: int): string {
    if i < 0 then "-" + NatToString(-i) else NatToString(i)
  }

  /** Length of the run of digits at the start of `s`. */
  function DigitRun(s: string): (k: nat)
    ensures k <= |s| && AllDigits(s[..k])
    ensures k < |s| ==> !IsDigit(s[k])
    ensures s != [] && IsDigit(s[0]) ==> k > 0
  {
    if s == [] || !IsDigit(s[0]) then 0
    else
      var k := 1 + DigitRun(s[1..]);
      assert s[..k] == [s[0]] + s[1..][..k - 1];
      k
  }

  /** The values of all `\d+` matches of `s`, left to right (`s.match(/\d+/g)` mapped through `Number`). */
  function Numbers(s: string): seq<nat>
    decreases |s|
  {
    if s == [] then []
    else if !IsDigit(s[0]) then Numbers(s[1..])
    else
      var k := DigitRun(s);
      [DigitsValue(s[..k])] + Numbers(s[k..])
  }

  /** A maximal digit run followed by the rest of the string contributes one number. */
  lemma {:induction false} NumbersOfDigitsThen(d: string, t: string)
    requires |d| > 0 && AllDigits(d)
    requires t == [] || !IsDigit(t[0])
    ensures Numbers(d + t) == [DigitsValue(d)] + Numbers(t)
  {
    DigitRunOfDigitsThen(d, t);
    assert (d + t)[..|d|] == d;
    assert (d + t)[|d|..] == t;
  }

  lemma {:induction false} DigitRunOfDigitsThen(d: string, t: string)
    requires AllDigits(d)
    requires t == [] || !IsDigit(t[0])
    ensures DigitRun(d + t) == |d|
  {
    if d != [] {
      assert (d + t)[1..] == d[1..] + t;
      DigitRunOfDigitsThen(d[1..], t);
    }
  }

  /** A character that is not a digit contributes nothing. */
  lemma {:induction false} NumbersSkip(c: char, t: string)
    requires !IsDigit(c)
    ensures Numbers([c] + t) == Numbers(t)
  {
    assert ([c] + t)[1..] == t;
  }

  /** `"{a}{c}{b}{rest}"` for naturals `a`, `b` and a non-digit `c` holds exactly the numbers `a` and `b`, then those of `rest`. */
  lemma {:induction false} NumbersOfPair(a: nat, c: char, b: nat, rest: string)
    requires !IsDigit(c)
    requires rest == [] || !IsDigit(rest[0])
    ensures Numbers(NatToString(a) + [c] + NatToString(b) + rest) == [a, b] + Numbers(rest)
  {
    ConcatAssoc(NatToString(a), [c], NatToString(b), rest);
    NumbersOfPairNested(a, c, b, rest);
    PairPrefix(a, b, Numbers(rest));
  }

  lemma {:induction false} NumbersOfPairNested(a: nat, c: char, b: nat, rest: string)
    requires !IsDigit(c)
    requires rest == [] || !IsDigit(rest[0])
    ensures Numbers(NatToString(a) + ([c] + (NatToString(b) + rest))) == [a] + ([b] + Numbers(rest))
  {
    var sa, sb := NatToString(a), NatToString(b);
    var tail := [c] + (sb + rest);
    NumbersOfDigitsThen(sb, rest);
    NumbersSkip(c, sb + rest);
    assert tail[0] == c;
    NumbersOfDigitsThen(sa, tail);
  }

  lemma PairPrefix(a: nat, b: nat, x: seq<nat>)
    ensures [a] + ([b] + x) == [a, b] + x
  {
  }

  lemma ConcatAssoc(w: string, x: string, y: string, z: string)
    ensures w + x + y + z == w + (x + (y + z))
  {
  }

  /** `s.includes(sub)`. */
  predicate Contains(s: string, sub: string) {
    exists i | 0 <= i <= |s| - |sub| :: OccursAt(s, sub, i)
  }

  predicate OccursAt(s: string, sub: string, i: int) {
    0 <= i <= |s| - |sub| && s[i..i + |sub|] == sub
  }

  function LowerChar(c: char): char {
    if 'A' <= c <= 'Z' then ((c as int) + 32) as char else c
  }

  /** `toLowerCase` on the ASCII letters. */
  function ToLower(s: string): (r: string)
    ensures |r| == |s|
    ensures forall i :: 0 <= i < |s| ==> r[i] == LowerChar(s[i])
  {
    seq(|s|, i requires 0 <= i < |s| => LowerChar(s[i]))
  }

  /** The white space and line terminators that `String.prototype.trim` removes. */
  predicate IsSpace(c: char) {
    c == ' ' || c == '\t' || c == '\n' || c == '\r' || c == '\U{000B}' || c == '\U{000C}'
    || c == '\U{00A0}' || c == '\U{1680}' || ('\U{2000}' <= c <= '\U{200A}')
    || c == '\U{2028}' || c == '\U{2029}' || c == '\U{202F}' || c == '\U{205F}'
    || c == '\U{3000}' || c == '\U{FEFF}'
  }

  function TrimStart(s: string): string {
    if s != [] && IsSpace(s[0]) then TrimStart(s[1..]) else s
  }

  function TrimEnd(s: string): string {
    if s != [] && IsSpace(s[|s| - 1]) then TrimEnd(s[..|s| - 1]) else s
  }

  /** `s.trim()`: `s` without its leading and trailing white space. */
  function Trim(s: string): (r: string)
    ensures r == [] || (!IsSpace(r[0]) && !IsSpace(r[|r| - 1]))
    ensures exists a, b :: 0 <= a <= b <= |s| && r == s[a..b]
  {
    var t := TrimStart(s);
    TrimStartFacts(s);
    TrimEndFacts(t);
    var r := TrimEnd(t);
    var a := |s| - |t|;
    assert r == s[a..a + |r|];
    r
  }

  lemma {:induction false} TrimStartFacts(s: string)
    ensures |TrimStart(s)| <= |s| && TrimStart(s) == s[|s| - |TrimStart(s)|..]
    ensures TrimStart(s) == [] || !IsSpace(TrimStart(s)[0])
  {
    if s != [] && IsSpace(s[0]) {
      TrimStartFacts(s[1..]);
    }
  }

  lemma {:induction false} TrimEndFacts(s: string)
    ensures |TrimEnd(s)| <= |s| && TrimEnd(s) == s[..|TrimEnd(s)|]
    ensures TrimEnd(s) == [] || !IsSpace(TrimEnd(s)[|TrimEnd(s)| - 1])
  {
    if s != [] && IsSpace(s[|s| - 1]) {
      TrimEndFacts(s[..|s| - 1]);
    }
  }

  /** Text that neither starts nor ends with white space trims to itself. */
  lemma TrimOfUnpadded(s: string)
    requires s != [] && !IsSpace(s[0]) && !IsSpace(s[|s| - 1])
    ensures Trim(s) == s
  {
    assert TrimStart(s) == s;
    assert TrimEnd(s) == s;
  }

  /** `s.indexOf(c)`: the first position of `c`, or -1. */
  function IndexOf(s: string, c: char): (r: int)
    ensures -1 <= r < |s|
    ensures r >= 0 ==> s[r] == c && forall i :: 0 <= i < r ==> s[i] != c
    ensures r == -1 ==> forall i :: 0 <= i < |s| ==> s[i] != c
  {
    if s == [] then -1
    else if s[0] == c then 0
    else
      var k := IndexOf(s[1..], c);
      if k == -1 then -1 else k + 1
  }

  /** `s.lastIndexOf(c)`: the last position of `c`, or -1. */
  function LastIndexOf(s: string, c: char): (r: int)
    ensures -1 <= r < |s|
    ensures r >= 0 ==> s[r] == c && forall i :: r < i < |s| ==> s[i] != c
    ensures r == -1 ==> forall i :: 0 <= i < |s| ==> s[i] != c
  {
    if s == [] then -1
    else if s[|s| - 1] == c then |s| - 1
    else LastIndexOf(s[..|s| - 1], c)
  }

  /** `parts.join(sep)`. */
  function Join(parts: seq<string>, sep: string): string {
    if parts == [] then ""
    else if |parts| == 1 then parts[0]
    else parts[0] + sep + Join(parts[1..], sep)
  }

  /** `parts.filter(Boolean).join(sep)`: the empty strings are dropped. */
  function JoinNonEmpty(parts: seq<string>, sep: string): string {
    Join(Seqs.Filter(parts, NonEmpty), sep)
  }

  predicate NonEmpty(p: string) {
    p != ""
  }

  /** `[a, b].filter(Boolean).join(sep)`. */
  lemma {:induction false} JoinNonEmptyPair(a: string, b: string, sep: string)
    ensures JoinNonEmpty([a, b], sep) == if a == "" then b else if b == "" then a else a + sep + b
  {
    var fb := Seqs.Filter([b], NonEmpty);
    assert [a, b][1..] == [b];
    assert [b][1..] == [];
    assert fb == if b != "" then [b] else [];
    assert Seqs.Filter([a, b], NonEmpty) == (if a != "" then [a] else []) + fb;
    if a != "" && b != "" {
      assert Seqs.Filter([a, b], NonEmpty) == [a, b];
      assert Join([a, b], sep) == a + sep + Join([b], sep);
    }
  }

  /** The separator used to chain notes. */
  const NoteSeparator: string := " · "

  /** `[a, b].filter(Boolean).join(' · ')`: appends note `b` to note `a`. */
  function AppendNote(a: string, b: string): (r: string)
    ensures r == JoinNonEmpty([a, b], NoteSeparator)
  {
    JoinNonEmptyPair(a, b, NoteSeparator);
    if a == "" then b else if b == "" then a else a + NoteSeparator + b
  }
}
