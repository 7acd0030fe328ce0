/** The handful of Python `str` operations the integration relies on:
    `isspace`/`strip`, `splitlines`, `rstrip("/")` and `str(int)`. */
module Text {

  /** Python's `str.isspace()` on one character (the set `str.strip()` removes). */
  predicate IsSpace(c: char) {
    || c == ' '
    || '\t' <= c <= '\r'
    || '\U{1c}' <= c <= '\U{1f}'
    || c == '\U{85}' || c == '\U{a0}' || c == '\U{1680}'
    || '\U{2000}' <= c <= '\U{200a}'
    || c == '\U{2028}' || c == '\U{2029}' || c == '\U{202f}' || c == '\U{205f}' || c == '\U{3000}'
  }

  /** The line boundaries of Python's `str.splitlines()`. */
  predicate IsLineBreak(c: char) {
    || c == '\n' || c == '\r'
    || c == '\U{b}' || c == '\U{c}'
    || '\U{1c}' <= c <= '\U{1e}'
    || c == '\U{85}' || c == '\U{2028}' || c == '\U{2029}'
  }

  predicate Blank(s: string) {
    forall k :: 0 <= k < |s| ==> IsSpace(s[k])
  }

  predicate NoBreak(s: string) {
    forall k :: 0 <= k < |s| ==> !IsLineBreak(s[k])
  }

  /** Printable ASCII text holds no line boundary. */
  predicate Printable(s: string) {
    forall k :: 0 <= k < |s| ==> ' ' <= s[k] <= '~'
  }

  // ---------------------------------------------------------------- strip

  /** Number of leading whitespace characters. */
  function LeadingSpace(s: string): (n: nat)
    ensures n <= |s|
    ensures forall k :: 0 <= k < n ==> IsSpace(s[k])
    ensures n < |s| ==> !IsSpace(s[n])
  {
    if s == [] || !IsSpace(s[0]) then 0 else 1 + LeadingSpace(s[1..])
  }

  /** Number of trailing whitespace characters. */
  function TrailingSpace(s: string): (n: nat)
    ensures n <= |s|
    ensures forall k :: |s| - n <= k < |s| ==> IsSpace(s[k])
    ensures n < |s| ==> !IsSpace(s[|s| - 1 - n])
  {
    if s == [] || !IsSpace(s[|s| - 1]) then 0 else 1 + TrailingSpace(s[..|s| - 1])
  }

  /** Neither end of the text is whitespace. */
  predicate Trimmed(s: string) {
    s == [] || (!IsSpace(s[0]) && !IsSpace(s[|s| - 1]))
  }

  /** Python's `s.strip()`: `s` without its leading and trailing whitespace. */
  function Strip(s: string): (r: string)
    ensures |r| <= |s|
    ensures r == [] <==> Blank(s)
    ensures Trimmed(r)
  {
    var t := s[LeadingSpace(s)..];
    t[..|t| - TrailingSpace(t)]
  }

  /** Strip is determined by what it removes: padding a trimmed text with whitespace on
      both sides and stripping gives the text back. */
  lemma StripOfPadded(lead: string, core: string, trail: string)
    requires Blank(lead) && Blank(trail)
    requires Trimmed(core)
    ensures Strip(lead + core + trail) == core
  {
    var s := lead + core + trail;
    if core == [] {
      assert Blank(s) by {
        forall k | 0 <= k < |s| ensures IsSpace(s[k]) {
          if k < |lead| { assert s[k] == lead[k]; } else { assert s[k] == trail[k - |lead|]; }
        }
      }
    } else {
      var i := LeadingSpace(s);
      assert s[|lead|] == core[0];
      assert i == |lead|;
      var t := s[i..];
      assert t == core + trail;
      var j := TrailingSpace(t);
      assert t[|core| - 1] == core[|core| - 1];
      assert j == |trail|;
      assert t[..|t| - j] == core;
    }
  }

  // ---------------------------------------------------------------- splitlines

  /** Index of the first line boundary, or |s| when there is none. */
  function FirstBreak(s: string): (i: nat)
    ensures i <= |s|
    ensures forall k :: 0 <= k < i ==> !IsLineBreak(s[k])
    ensures i < |s| ==> IsLineBreak(s[i])
  {
    if s == [] || IsLineBreak(s[0]) then 0 else 1 + FirstBreak(s[1..])
  }

  /** Width of the boundary at `i`: "\r\n" counts as one boundary of two characters. */
  function BreakWidth(s: string, i: nat): (w: nat)
    requires i < |s|
    ensures 1 <= w <= |s| - i
  {
    if s[i] == '\r' && i + 1 < |s| && s[i + 1] == '\n' then 2 else 1
  }

  /** Python's `s.splitlines()`: the lines of `s` without their boundaries; a final
      boundary does not open an empty last line. */
  function Lines(s: string): (ls: seq<string>)
    ensures forall k :: 0 <= k < |ls| ==> NoBreak(ls[k])
    ensures ls == [] <==> s == []
    decreases |s|
  {
    if s == [] then []
    else
      var i := FirstBreak(s);
      if i == |s| then [s] else [s[..i]] + Lines(s[i + BreakWidth(s, i)..])
  }

  /** One line boundary as written: "\r\n", or a single boundary character. */
  predicate IsBoundary(b: string) {
    b == "\r\n" || (|b| == 1 && IsLineBreak(b[0]))
  }

  /** Reference definition: each line followed by its separator. */
  function JoinWith(ls: seq<string>, seps: seq<string>): string
    requires |seps| == |ls|
    decreases |ls|
  {
    if ls == [] then "" else ls[0] + seps[0] + JoinWith(ls[1..], seps[1..])
  }

  /** Lines and separators that `splitlines` would read back: no line holds a boundary, every
      separator is one boundary except that the last may be empty when the last line is not,
      and a "\r" separator is not followed by an empty line and "\n" (that would be "\r\n"). */
  predicate WellSplit(ls: seq<string>, seps: seq<string>)
    decreases |ls|
  {
    && |seps| == |ls|
    && (|ls| > 0 ==>
          && NoBreak(ls[0])
          && (if |ls| == 1 then IsBoundary(seps[0]) || (seps[0] == [] && ls[0] != [])
              else
                && IsBoundary(seps[0])
                && !(seps[0] == "\r" && ls[1] == [] && seps[1] == "\n")
                && WellSplit(ls[1..], seps[1..])))
  }

  /** Where the first line of a well-formed join ends: at its first boundary, which is the
      first separator whole. */
  lemma JoinFirstBreak(ls: seq<string>, seps: seq<string>)
    requires WellSplit(ls, seps) && ls != [] && seps[0] != []
    ensures var s, n := JoinWith(ls, seps), |ls[0]|;
      && n < |s| && FirstBreak(s) == n && BreakWidth(s, n) == |seps[0]|
      && s[..n] == ls[0] && s[n + |seps[0]|..] == JoinWith(ls[1..], seps[1..])
      && Lines(s) == [ls[0]] + Lines(JoinWith(ls[1..], seps[1..]))
  {
    var s, n := JoinWith(ls, seps), |ls[0]|;
    var rest := JoinWith(ls[1..], seps[1..]);
    assert s == ls[0] + seps[0] + rest;
    assert s[..n] == ls[0];
    assert s[n] == seps[0][0];
    assert FirstBreak(s) == n;
    if seps[0] == "\r" && n + 1 < |s| {
      assert rest != [] && s[n + 1] == rest[0];
      if ls[1] != [] {
        assert rest[0] == ls[1][0];
      } else {
        assert rest[0] == seps[1][0];
      }
    }
    assert s[n + |seps[0]|..] == rest;
  }

  /** Splitting a well-formed join gives its lines back, whatever the boundaries. */
  lemma {:induction false} LinesOfWellSplit(ls: seq<string>, seps: seq<string>)
    requires WellSplit(ls, seps)
    ensures Lines(JoinWith(ls, seps)) == ls
    decreases |ls|
  {
    if ls != [] {
      var s := JoinWith(ls, seps);
      if seps[0] == [] {
        assert |ls| == 1 && s == ls[0] + "" + "";
        assert FirstBreak(s) == |s|;
        assert s == ls[0];
        assert Lines(s) == [s] && ls == [ls[0]];
      } else {
        JoinFirstBreak(ls, seps);
        var rest := JoinWith(ls[1..], seps[1..]);
        assert Lines(s) == [ls[0]] + Lines(rest);
        if |ls| > 1 {
          LinesOfWellSplit(ls[1..], seps[1..]);
        } else {
          assert rest == [] && ls[1..] == [];
        }
        assert Lines(rest) == ls[1..];
        assert ls == [ls[0]] + ls[1..];
      }
    }
  }

  /** The separators `splitlines` drops, one per line: the boundary after it, or "" after
      a last line that has none. */
  function Separators(s: string): (seps: seq<string>)
    ensures |seps| == |Lines(s)|
    decreases |s|
  {
    if s == [] then []
    else
      var i := FirstBreak(s);
      if i == |s| then [""] else [s[i..i + BreakWidth(s, i)]] + Separators(s[i + BreakWidth(s, i)..])
  }

  /** Putting one more line and boundary in front of a well-formed split keeps it well formed. */
  lemma WellSplitCons(line: string, sep: string, ls: seq<string>, seps: seq<string>)
    requires NoBreak(line) && IsBoundary(sep) && WellSplit(ls, seps)
    requires ls != [] ==> !(sep == "\r" && ls[0] == [] && seps[0] == "\n")
    ensures WellSplit([line] + ls, [sep] + seps)
    ensures JoinWith([line] + ls, [sep] + seps) == line + sep + JoinWith(ls, seps)
  {
    assert ([line] + ls)[1..] == ls && ([sep] + seps)[1..] == seps;
  }

  lemma ThreeParts(s: string, i: nat, j: nat)
    requires i <= j <= |s|
    ensures s == s[..i] + s[i..j] + s[j..]
  {
  }

  /** The first line and boundary of a text that has one, and what follows them. */
  lemma FirstLineOf(s: string)
    requires s != [] && FirstBreak(s) < |s|
    ensures var i := FirstBreak(s);
      var w := BreakWidth(s, i);
      var line, sep, rest := s[..i], s[i..i + w], s[i + w..];
      && s == line + sep + rest && NoBreak(line) && IsBoundary(sep)
      && Lines(s) == [line] + Lines(rest) && Separators(s) == [sep] + Separators(rest)
      // a lone "\r" is never followed by "\n"
      && (sep == "\r" && rest != [] ==> rest[0] != '\n')
  {
    var i := FirstBreak(s);
    ThreeParts(s, i, i + BreakWidth(s, i));
  }

  /** A text that starts with a boundary has an empty first line, and its first separator
      starts with that boundary character. */
  lemma LeadingBoundary(s: string)
    requires s != [] && IsLineBreak(s[0])
    ensures Lines(s)[0] == [] && Separators(s)[0][0] == s[0]
  {
    assert FirstBreak(s) == 0;
  }

  /** Every text is the well-formed join of its lines: with LinesOfWellSplit this fixes
      `Lines` on every input. */
  lemma {:induction false} SplitLines(s: string)
    ensures WellSplit(Lines(s), Separators(s))
    ensures JoinWith(Lines(s), Separators(s)) == s
    decreases |s|
  {
    if s != [] {
      var i := FirstBreak(s);
      if i < |s| {
        FirstLineOf(s);
        var w := BreakWidth(s, i);
        var line, sep, rest := s[..i], s[i..i + w], s[i + w..];
        SplitLines(rest);
        if rest != [] && IsLineBreak(rest[0]) {
          LeadingBoundary(rest);
        }
        WellSplitCons(line, sep, Lines(rest), Separators(rest));
      } else {
        assert JoinWith([s], [""]) == s + "" + JoinWith([], []);
      }
    }
  }

  /** A boundary at the end of a line opens no further line, whichever boundary it is. */
  lemma TrailingBoundaryOpensNoLine(line: string, b: string)
    requires NoBreak(line) && IsBoundary(b)
    ensures Lines(line + b) == [line]
  {
    assert JoinWith([line], [b]) == line + b + JoinWith([], []);
    LinesOfWellSplit([line], [b]);
  }

  // ---------------------------------------------------------------- rstrip("/")

  predicate AllSlashes(s: string) {
    forall k :: 0 <= k < |s| ==> s[k] == '/'
  }

  /** Python's `s.rstrip("/")`: the longest prefix of `s` that does not end in '/' once every
      trailing '/' is removed. */
  function TrimTrailingSlashes(s: string): (r: string)
    ensures |r| <= |s| && r == s[..|r|]
    ensures AllSlashes(s[|r|..])
    ensures r == [] || r[|r| - 1] != '/'
  {
    if s != [] && s[|s| - 1] == '/' then TrimTrailingSlashes(s[..|s| - 1]) else s
  }

  /** The characterization above determines the result: a text that does not end in '/',
      followed by any run of '/', trims back to that text. */
  lemma {:induction false} TrimTrailingSlashesOf(base: string, slashes: string)
    requires base == [] || base[|base| - 1] != '/'
    requires AllSlashes(slashes)
    ensures TrimTrailingSlashes(base + slashes) == base
    decreases |slashes|
  {
    if slashes != [] {
      var s := base + slashes;
      assert s[|s| - 1] == '/';
      assert s[..|s| - 1] == base + slashes[..|slashes| - 1];
      TrimTrailingSlashesOf(base, slashes[..|slashes| - 1]);
    } else {
      assert base + slashes == base;
    }
  }

  // ---------------------------------------------------------------- str(int)

  predicate IsDigit(c: char) {
    '0' <= c <= '9'
  }

  predicate AllDigits(s: string) {
    forall k :: 0 <= k < |s| ==> IsDigit(s[k])
  }

  function DigitChar(d: nat): (c: char)
    requires d < 10
    ensures IsDigit(c)
  {
    ('0' as int + d) as char
  }

  /** Decimal digits of `n`, most significant first. */
  function NatToDecimal(n: nat): (r: string)
    ensures |r| > 0 && AllDigits(r)
    // no leading zero: only 0 itself is written "0"
    ensures n == 0 <==> r == "0"
    ensures r[0] == '0' ==> n == 0
    decreases n
  {
    if n < 10 then [DigitChar(n)] else NatToDecimal(n / 10) + [DigitChar(n % 10)]
  }

  /** Reference definition: the value a string of decimal digits denotes. */
  function DecimalValue(s: string): nat
    requires AllDigits(s)
  {
    if s == [] then 0 else 10 * DecimalValue(s[..|s| - 1]) + (s[|s| - 1] as int - '0' as int)
  }

  lemma {:induction false} DecimalRoundTrip(n: nat)
    ensures DecimalValue(NatToDecimal(n)) == n
    decreases n
  {
    var r := NatToDecimal(n);
    if n >= 10 {
      DecimalRoundTrip(n / 10);
      assert r[..|r| - 1] == NatToDecimal(n / 10);
    }
  }

  /** Python's `str(i)`. */
  function IntToString(i: int): (r: string)
    ensures r != []
    ensures forall k :: 0 <= k < |r| ==> r[k] != ' '
    ensures r[0] == '-' <==> i < 0
    // after the sign, the digits of the magnitude, without a leading zero
    ensures var d := if i < 0 then r[1..] else r;
      && d != [] && AllDigits(d) && DecimalValue(d) == (if i < 0 then -i else i)
      && (d == "0" || d[0] != '0')
  {
    DecimalRoundTrip(if i < 0 then -i else i);
    if i < 0 then "-" + NatToDecimal(-i) else NatToDecimal(i)
  }

  /** Distinct natural numbers have distinct digits. */
  lemma NatToDecimalInjective(m: nat, n: nat)
    requires NatToDecimal(m) == NatToDecimal(n)
    ensures m == n
  {
    DecimalRoundTrip(m);
    DecimalRoundTrip(n);
  }

  /** Distinct integers render differently. */
  lemma IntToStringInjective(i: int, j: int)
    requires IntToString(i) == IntToString(j)
    ensures i == j
  {
    var r := IntToString(i);
    assert r[0] == IntToString(j)[0];
    if i < 0 {
      assert r == "-" + NatToDecimal(-i) == "-" + NatToDecimal(-j);
      assert r[1..] == NatToDecimal(-i) == NatToDecimal(-j);
      NatToDecimalInjective(-i, -j);
    } else {
      NatToDecimalInjective(i, j);
    }
  }
}
