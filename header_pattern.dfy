/**
 * The cartridge header-line matcher of the TIC-80 webpack plugin.
 *
 * A header line is one that the case-insensitive pattern
 *   ^\s*\/\/\s*(title|author|desc|script|input|saveid):.*
 * accepts: optional whitespace, the comment marker `//`, optional whitespace,
 * one of six metadata keywords in any letter case, then a colon; anything may
 * follow. `IsHeaderLine` is a deterministic scanner for that pattern and
 * `MatchesPattern` is the pattern itself, stated with existentials; the lemma
 * `HeaderLineIffPattern` shows the two agree on every line.
 */
module HeaderPattern {

  /** The six metadata keywords, in the order the pattern lists them. */
  const Keywords: seq<string> := ["title", "author", "desc", "script", "input", "saveid"]

  /**
   * The characters the pattern's `\s` accepts: ECMAScript's WhiteSpace and
   * LineTerminator code points (tab, line feed, vertical tab, form feed,
   * carriage return, space, no-break space, ogham space mark, the spaces
   * U+2000 to U+200A, line and paragraph separator, narrow no-break space,
   * medium mathematical space, ideographic space, byte-order mark).
   */
  predicate IsSpace(c: char)
    ensures IsSpace(c) ==> c != '/' && c != ':' && !('a' <= c <= 'z') && !('A' <= c <= 'Z')
  {
    || c == '\t' || c == '\n' || c == '\U{0B}' || c == '\U{0C}' || c == '\r' || c == ' '
    || c == '\U{A0}' || c == '\U{1680}'
    || ('\U{2000}' <= c <= '\U{200A}')
    || c == '\U{2028}' || c == '\U{2029}' || c == '\U{202F}' || c == '\U{205F}'
    || c == '\U{3000}' || c == '\U{FEFF}'
  }

  predicate AllSpace(s: string)
  {
    forall k :: 0 <= k < |s| ==> IsSpace(s[k])
  }

  /** Case folding of the `i` flag, restricted to what the keywords need. */
  function LowerAscii(c: char): (d: char)
    ensures 'a' <= d <= 'z' ==> ('a' <= c <= 'z' || 'A' <= c <= 'Z')
  {
    if 'A' <= c <= 'Z' then (c as int + 32) as char else c
  }

  function Lower(s: string): (t: string)
    ensures |t| == |s|
    ensures forall k :: 0 <= k < |s| ==> t[k] == LowerAscii(s[k])
  {
    seq(|s|, k requires 0 <= k < |s| => LowerAscii(s[k]))
  }

  /** The upper-case partner of a lower-case ASCII letter; other characters are their own. */
  function UpperAscii(c: char): (d: char)
    ensures 'a' <= c <= 'z' ==> 'A' <= d <= 'Z' && LowerAscii(d) == c
    ensures !('a' <= c <= 'z') ==> d == c
  {
    if 'a' <= c <= 'z' then (c as int - 32) as char else c
  }

  /**
   * Folding `s` gives the lower-case word `w` exactly when `s` spells `w`
   * with each letter in either case, and nothing else.
   */
  lemma LowerIffAnyCase(s: string, w: string)
    requires forall k :: 0 <= k < |w| ==> 'a' <= w[k] <= 'z'
    ensures Lower(s) == w <==>
      |s| == |w| && forall k :: 0 <= k < |s| ==> s[k] == w[k] || s[k] == UpperAscii(w[k])
  {
  }

  /** The keyword `kw` (in any case) followed by a colon starts at index `j` of `line`. */
  predicate TagAt(line: string, j: nat, kw: string)
  {
    j + |kw| < |line| && Lower(line[j..j + |kw|]) == kw && line[j + |kw|] == ':'
  }

  /** Index of the first non-whitespace character of `s` at or after `i` (or `|s|`). */
  function SkipSpaces(s: string, i: nat): (j: nat)
    requires i <= |s|
    ensures i <= j <= |s|
    ensures AllSpace(s[i..j])
    ensures j == |s| || !IsSpace(s[j])
    decreases |s| - i
  {
    if i == |s| || !IsSpace(s[i]) then i else SkipSpaces(s, i + 1)
  }

  /** The scanner: the test `HEADER_REGEX.test(line)` performs. */
  predicate IsHeaderLine(line: string)
    ensures IsHeaderLine(line) ==> |line| >= 7
  {
    var a := SkipSpaces(line, 0);
    a + 2 <= |line| && line[a..a + 2] == "//" &&
    var b := SkipSpaces(line, a + 2);
    exists kw | kw in Keywords :: TagAt(line, b, kw)
  }

  /** The pattern matches with the first `\s*` covering `line[..a]` and the second `line[a + 2..b]`. */
  predicate PatternAt(line: string, a: nat, b: nat, kw: string)
  {
    && a + 2 <= b <= |line|
    && AllSpace(line[..a])
    && line[a..a + 2] == "//"
    && AllSpace(line[a + 2..b])
    && kw in Keywords
    && TagAt(line, b, kw)
  }

  /** The pattern, as a regular-expression matcher would read it: some split of the line fits it. */
  ghost predicate MatchesPattern(line: string)
  {
    exists a: nat, b: nat, kw: string :: PatternAt(line, a, b, kw)
  }

  /** Once `s[i..a]` is all whitespace and `s[a]` is not, skipping from `i` stops exactly at `a`. */
  lemma {:induction false} SkipSpacesStopsAt(s: string, i: nat, a: nat)
    requires i <= a < |s|
    requires AllSpace(s[i..a]) && !IsSpace(s[a])
    ensures SkipSpaces(s, i) == a
    decreases a - i
  {
    if i < a {
      assert IsSpace(s[i..a][0]);
      assert s[i + 1..a] == s[i..a][1..];
      SkipSpacesStopsAt(s, i + 1, a);
    }
  }

  /** A keyword never starts with whitespace, in any case. */
  lemma TagStartsWithLetter(line: string, b: nat, kw: string)
    requires kw in Keywords && TagAt(line, b, kw)
    ensures b < |line| && !IsSpace(line[b])
  {
    assert Lower(line[b..b + |kw|])[0] == LowerAscii(line[b]);
    assert 'a' <= kw[0] <= 'z';
  }

  /** The scanner accepts exactly the lines the pattern matches (both directions). */
  lemma HeaderLineIffPattern(line: string)
    ensures IsHeaderLine(line) <==> MatchesPattern(line)
  {
    if IsHeaderLine(line) {
      var a := SkipSpaces(line, 0);
      var b := SkipSpaces(line, a + 2);
      var kw :| kw in Keywords && TagAt(line, b, kw);
      assert line[..a] == line[0..a];
      assert PatternAt(line, a, b, kw);
    }
    if MatchesPattern(line) {
      var a: nat, b: nat, kw: string :| PatternAt(line, a, b, kw);
      assert line[0..a] == line[..a];
      assert line[a] == '/';
      SkipSpacesStopsAt(line, 0, a);
      TagStartsWithLetter(line, b, kw);
      SkipSpacesStopsAt(line, a + 2, b);
      assert IsHeaderLine(line);
    }
  }

  /** The match is anchored: a line whose first character is neither whitespace nor `/` is never a header line. */
  lemma AnchoredAtLineStart(line: string)
    requires |line| > 0 && !IsSpace(line[0]) && line[0] != '/'
    ensures !IsHeaderLine(line)
  {
    assert SkipSpaces(line, 0) == 0;
  }

  /** Title and author lines with trailing text are header lines. */
  lemma SampleTitleAndAuthor()
    ensures IsHeaderLine("// title: Demo")
    ensures IsHeaderLine("// author: Jane")
  {
    assert SkipSpaces("// title: Demo", 2) == 3;
    assert TagAt("// title: Demo", 3, "title");
    assert SkipSpaces("// author: Jane", 2) == 3;
    assert TagAt("// author: Jane", 3, "author");
  }

  /** A byte-order mark and an ideographic space count as whitespace before `//`. */
  lemma SampleWideSpaces()
    ensures IsHeaderLine("\U{FEFF}\U{3000}// input: x")
  {
    assert SkipSpaces("\U{FEFF}\U{3000}// input: x", 0) == 2;
    assert SkipSpaces("\U{FEFF}\U{3000}// input: x", 4) == 5;
    assert TagAt("\U{FEFF}\U{3000}// input: x", 5, "input");
  }

  /** A non-ASCII letter does not fold onto a keyword letter: dotless `ı` does not spell `title`. */
  lemma SampleDotlessI()
    ensures !IsHeaderLine("// t\U{0131}tle: x")
  {
    var line := "// t\U{0131}tle: x";
    assert SkipSpaces(line, 2) == 3;
    forall kw | kw in Keywords
      ensures !TagAt(line, 3, kw)
    {
      assert Lower(line[3..3 + |kw|])[1] == '\U{0131}';
    }
  }

  /** A line of code is not a header line. */
  lemma SampleCode()
    ensures !IsHeaderLine("print(1)")
  {
    assert SkipSpaces("print(1)", 0) == 0;
  }

  /** Leading blanks and upper-case letters are accepted. */
  lemma SampleUpperCase()
    ensures IsHeaderLine("\t //SaveID:x")
  {
    assert SkipSpaces("\t //SaveID:x", 0) == 2;
    assert SkipSpaces("\t //SaveID:x", 4) == 4;
    assert TagAt("\t //SaveID:x", 4, "saveid");
  }

  /** A longer word than the keyword is not accepted. */
  lemma SampleLongerWord()
    ensures !IsHeaderLine("// titles: x")
  {
    assert SkipSpaces("// titles: x", 2) == 3;
    assert "// titles: x"[8] != ':';
    assert forall kw | kw in Keywords :: !TagAt("// titles: x", 3, kw);
  }
}
