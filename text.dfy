/** The handful of Python string operations the crawlers rely on:
    `str.splitlines`, `str.strip`, `str.endswith` and `str(int)`. */
module Text {

  // ---------------------------------------------------------------------------
  // Lines (`str.splitlines`, restricted to '\n' as the line boundary)
  // ---------------------------------------------------------------------------

  /** Index of the first '\n' in `t`, or `|t|` when there is none. */
  function LineEnd(t: string): (k: nat)
    ensures k <= |t|
    ensures k < |t| ==> t[k] == '\n'
    ensures forall i :: 0 <= i < k ==> t[i] != '\n'
  {
    if t == [] || t[0] == '\n' then 0 else 1 + LineEnd(t[1..])
  }

  /** The lines of `t`, without their terminators; a final '\n' does not start
      an empty line, as with Python's `splitlines`. */
  function SplitLines(t: string): seq<string>
    decreases |t|
  {
    if t == [] then []
    else
      var k := LineEnd(t);
      if k == |t| then [t] else [t[..k]] + SplitLines(t[k + 1..])
  }

  /** No line holds a line break, and there are no more lines than characters. */
  lemma {:induction false} SplitLinesShape(t: string)
    ensures forall i :: 0 <= i < |SplitLines(t)| ==> '\n' !in SplitLines(t)[i]
    ensures |SplitLines(t)| <= |t|
    decreases |t|
  {
    if t != [] {
      var k := LineEnd(t);
      if k < |t| {
        var rest := t[k + 1..];
        SplitLinesShape(rest);
        var lines := SplitLines(t);
        assert lines == [t[..k]] + SplitLines(rest);
        forall i | 0 <= i < |lines| ensures '\n' !in lines[i] {
          if i > 0 {
            assert lines[i] == SplitLines(rest)[i - 1];
          }
        }
      }
    }
  }

  /** Each line followed by its '\n' terminator. */
  function Unsplit(lines: seq<string>): string {
    if lines == [] then "" else lines[0] + "\n" + Unsplit(lines[1..])
  }

  /** Splitting loses nothing but the distinction between a text that ends in
      '\n' and one that does not. */
  lemma {:induction false} SplitLinesRoundTrip(t: string)
    ensures t == [] || t[|t| - 1] == '\n' ==> Unsplit(SplitLines(t)) == t
    ensures t != [] && t[|t| - 1] != '\n' ==> Unsplit(SplitLines(t)) == t + "\n"
    decreases |t|
  {
    if t != [] {
      var k := LineEnd(t);
      if k == |t| {
        assert Unsplit([t]) == t + "\n";
      } else {
        var rest := t[k + 1..];
        SplitLinesRoundTrip(rest);
        assert t == t[..k] + "\n" + rest;
        assert ([t[..k]] + SplitLines(rest))[1..] == SplitLines(rest);
        if rest != [] {
          assert rest[|rest| - 1] == t[|t| - 1];
        }
      }
    }
  }

  /** Python's `lst[1:]`: everything after the first element, or nothing. */
  function Tail<T>(s: seq<T>): seq<T> {
    if s == [] then [] else s[1..]
  }

  // ---------------------------------------------------------------------------
  // Whitespace stripping (`str.strip()` with no argument)
  // ---------------------------------------------------------------------------

  /** Python's `str.isspace` on one character (Unicode 15.0): the characters
      of bidirectional class WS, B or S, or of general category Zs. */
  predicate IsSpace(c: char) {
    ('\t' <= c <= '\r') || ('\U{1C}' <= c <= ' ')
    || c == '\U{85}' || c == '\U{A0}' || c == '\U{1680}'
    || ('\U{2000}' <= c <= '\U{200A}')
    || c == '\U{2028}' || c == '\U{2029}' || c == '\U{202F}' || c == '\U{205F}' || c == '\U{3000}'
  }

  /** Number of whitespace characters at the start of `s`. */
  function LeadingSpace(s: string): (n: nat)
    ensures n <= |s|
  {
    if s == [] || !IsSpace(s[0]) then 0 else 1 + LeadingSpace(s[1..])
  }

  /** Number of whitespace characters at the end of `s`. */
  function TrailingSpace(s: string): (n: nat)
    ensures n <= |s|
  {
    if s == [] || !IsSpace(s[|s| - 1]) then 0 else 1 + TrailingSpace(s[..|s| - 1])
  }

  /** `LeadingSpace` counts exactly the whitespace run at the start. */
  lemma {:induction false} LeadingSpaceSpec(s: string)
    ensures forall k :: 0 <= k < LeadingSpace(s) ==> IsSpace(s[k])
    ensures LeadingSpace(s) < |s| ==> !IsSpace(s[LeadingSpace(s)])
  {
    if s != [] && IsSpace(s[0]) {
      LeadingSpaceSpec(s[1..]);
      forall k | 1 <= k < LeadingSpace(s) ensures IsSpace(s[k]) {
        assert s[k] == s[1..][k - 1];
      }
    }
  }

  /** `TrailingSpace` counts exactly the whitespace run at the end. */
  lemma {:induction false} TrailingSpaceSpec(s: string)
    ensures forall k :: |s| - TrailingSpace(s) <= k < |s| ==> IsSpace(s[k])
    ensures TrailingSpace(s) < |s| ==> !IsSpace(s[|s| - 1 - TrailingSpace(s)])
  {
    if s != [] && IsSpace(s[|s| - 1]) {
      var p := s[..|s| - 1];
      TrailingSpaceSpec(p);
      forall k | |s| - TrailingSpace(s) <= k < |s| - 1 ensures IsSpace(s[k]) {
        assert s[k] == p[k];
      }
      if TrailingSpace(s) < |s| {
        assert s[|s| - 1 - TrailingSpace(s)] == p[|p| - 1 - TrailingSpace(p)];
      }
    }
  }

  /** `s.strip()`: `s` without its leading and trailing whitespace. */
  function Strip(s: string): (r: string)
  {
    var a := LeadingSpace(s);
    var rest := s[a..];
    rest[..|rest| - TrailingSpace(rest)]
  }

  /** The stripped string is a slice of the original, cut only at whitespace,
      and starts and ends with a non-whitespace character. */
  lemma StripSpec(s: string)
    ensures exists i, j :: 0 <= i <= j <= |s| && Strip(s) == s[i..j]
                           && (forall k :: 0 <= k < i ==> IsSpace(s[k]))
                           && (forall k :: j <= k < |s| ==> IsSpace(s[k]))
    ensures Strip(s) != [] ==> !IsSpace(Strip(s)[0]) && !IsSpace(Strip(s)[|Strip(s)| - 1])
  {
    var a := LeadingSpace(s);
    var rest := s[a..];
    var b := TrailingSpace(rest);
    LeadingSpaceSpec(s);
    TrailingSpaceSpec(rest);
    assert Strip(s) == s[a..|s| - b];
    forall k | |s| - b <= k < |s| ensures IsSpace(s[k]) {
      assert s[k] == rest[k - a];
    }
    if Strip(s) != [] {
      assert Strip(s)[0] == s[a];
      assert Strip(s)[|Strip(s)| - 1] == rest[|rest| - 1 - b];
    }
  }

  // ---------------------------------------------------------------------------
  // Suffix test (`str.endswith`)
  // ---------------------------------------------------------------------------

  predicate EndsWith(s: string, suffix: string) {
    |suffix| <= |s| && s[|s| - |suffix|..] == suffix
  }

  // ---------------------------------------------------------------------------
  // Decimal rendering of integers (`str(n)` for an int) and its inverse
  // ---------------------------------------------------------------------------

  function DigitChar(d: nat): (c: char)
    requires d < 10
    ensures '0' <= c <= '9'
  {
    ['0', '1', '2', '3', '4', '5', '6', '7', '8', '9'][d]
  }

  function DigitValue(c: char): nat {
    if '0' <= c <= '9' then (c - '0') as nat else 0
  }

  function NatToString(n: nat): (s: string)
    ensures s != [] && '0' <= s[0] <= '9'
  {
    if n < 10 then [DigitChar(n)] else NatToString(n / 10) + [DigitChar(n % 10)]
  }

  /** `str(i)` for a Python int. */
  function IntToString(i: int): string {
    if i < 0 then "-" + NatToString(-i) else NatToString(i)
  }

  function ParseNat(s: string): nat {
    if s == [] then 0 else ParseNat(s[..|s| - 1]) * 10 + DigitValue(s[|s| - 1])
  }

  /** `int(s)` for a decimal string with an optional leading '-'. */
  function ParseInt(s: string): int {
    if s != [] && s[0] == '-' then 0 - ParseNat(s[1..]) else ParseNat(s)
  }

  lemma {:induction false} NatToStringRoundTrip(n: nat)
    ensures ParseNat(NatToString(n)) == n
  {
    if n >= 10 {
      var s := NatToString(n);
      assert s[..|s| - 1] == NatToString(n / 10);
      NatToStringRoundTrip(n / 10);
    }
  }

  lemma {:induction false} IntToStringRoundTrip(i: int)
    ensures ParseInt(IntToString(i)) == i
  {
    if i < 0 {
      var digits := NatToString(-i);
      var s := "-" + digits;
      assert s[0] == '-' && s[1..] == digits;
      NatToStringRoundTrip(-i);
      assert ParseInt(s) == 0 - ParseNat(digits);
    } else {
      var s := NatToString(i);
      assert s[0] != '-';
      NatToStringRoundTrip(i);
    }
  }

  /** Distinct integers have distinct decimal renderings. */
  lemma IntToStringInjective(i: int, j: int)
    ensures IntToString(i) == IntToString(j) ==> i == j
  {
    IntToStringRoundTrip(i);
    IntToStringRoundTrip(j);
  }
}
