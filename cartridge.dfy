/**
 * Splitting the cartridge's lines into header and footer lines.
 *
 * When the cartridge file has been read, its lines are filtered twice: the
 * header lines keep the lines the header pattern accepts, the footer lines
 * keep the others, both in input order. A separator `"\n"` is then pushed at
 * the end of the header lines and shifted in at the front of the footer lines.
 */
module Cartridge {
  import opened HeaderPattern

  /** The element pushed after the header lines and before the footer lines. */
  const Separator: string := "\n"

  /** `lines.filter(line => HEADER_REGEX.test(line))` */
  function Headers(lines: seq<string>): (r: seq<string>)
    ensures |r| <= |lines|
    ensures forall x :: x in r <==> x in lines && IsHeaderLine(x)
  {
    if lines == [] then []
    else (if IsHeaderLine(lines[0]) then [lines[0]] else []) + Headers(lines[1..])
  }

  /** `lines.filter(line => !HEADER_REGEX.test(line))` */
  function Footers(lines: seq<string>): (r: seq<string>)
    ensures |r| <= |lines|
    ensures forall x :: x in r <==> x in lines && !IsHeaderLine(x)
  {
    if lines == [] then []
    else (if IsHeaderLine(lines[0]) then [] else [lines[0]]) + Footers(lines[1..])
  }

  /** The header lines once the separator has been pushed. */
  function HeaderLines(lines: seq<string>): (r: seq<string>)
    ensures |r| == |Headers(lines)| + 1
    ensures r[|r| - 1] == Separator && r[..|r| - 1] == Headers(lines)
  {
    Headers(lines) + [Separator]
  }

  /** The footer lines once the separator has been shifted in. */
  function FooterLines(lines: seq<string>): (r: seq<string>)
    ensures |r| == |Footers(lines)| + 1
    ensures r[0] == Separator && r[1..] == Footers(lines)
  {
    [Separator] + Footers(lines)
  }

  /**
   * `lines` is an interleaving of `a` and `b`: every element of `lines` is
   * taken, in order, from the front of exactly one of them.
   */
  ghost predicate Interleaves(lines: seq<string>, a: seq<string>, b: seq<string>)
    decreases |lines|
  {
    if lines == [] then a == [] && b == []
    else
      || (a != [] && a[0] == lines[0] && Interleaves(lines[1..], a[1..], b))
      || (b != [] && b[0] == lines[0] && Interleaves(lines[1..], a, b[1..]))
  }

  /** Each filtered list keeps the input's order, and together they take every line once. */
  lemma {:induction false} PartitionInterleaves(lines: seq<string>)
    ensures Interleaves(lines, Headers(lines), Footers(lines))
  {
    if lines != [] {
      var rest := lines[1..];
      PartitionInterleaves(rest);
      var h, f := Headers(lines), Footers(lines);
      if IsHeaderLine(lines[0]) {
        assert h == [lines[0]] + Headers(rest) && f == Footers(rest);
        assert h[1..] == Headers(rest);
        assert h != [] && h[0] == lines[0] && Interleaves(rest, h[1..], f);
      } else {
        assert f == [lines[0]] + Footers(rest) && h == Headers(rest);
        assert f[1..] == Footers(rest);
        assert f != [] && f[0] == lines[0] && Interleaves(rest, h, f[1..]);
      }
    }
  }

  /** Every input line lands in exactly one of the two filtered lists, as often as it occurs. */
  lemma {:induction false} PartitionCounts(lines: seq<string>)
    ensures multiset(Headers(lines)) + multiset(Footers(lines)) == multiset(lines)
    ensures |Headers(lines)| + |Footers(lines)| == |lines|
  {
    if lines != [] {
      var rest := lines[1..];
      PartitionCounts(rest);
      assert lines == [lines[0]] + rest;
      assert Headers(lines) == (if IsHeaderLine(lines[0]) then [lines[0]] else []) + Headers(rest);
      assert Footers(lines) == (if IsHeaderLine(lines[0]) then [] else [lines[0]]) + Footers(rest);
    }
  }

  /**
   * The filtered lists are the only split of `lines` into an order-keeping
   * interleaving of header lines and non-header lines.
   */
  lemma {:induction false} PartitionUnique(lines: seq<string>, a: seq<string>, b: seq<string>)
    requires Interleaves(lines, a, b)
    requires forall x :: x in a ==> IsHeaderLine(x)
    requires forall x :: x in b ==> !IsHeaderLine(x)
    ensures a == Headers(lines) && b == Footers(lines)
    decreases |lines|
  {
    if lines != [] {
      if a != [] && a[0] == lines[0] && Interleaves(lines[1..], a[1..], b) {
        assert a[0] in a;
        PartitionUnique(lines[1..], a[1..], b);
        assert a == [a[0]] + a[1..];
      } else {
        assert b[0] in b;
        PartitionUnique(lines[1..], a, b[1..]);
        assert b == [b[0]] + b[1..];
      }
    }
  }

  /**
   * After the separators are added there are two more lines than the input
   * had, the header lines end with the separator and the footer lines start
   * with it, and in between sit exactly the filtered lines.
   */
  lemma SeparatedLengths(lines: seq<string>)
    ensures |HeaderLines(lines)| + |FooterLines(lines)| == |lines| + 2
    ensures HeaderLines(lines)[|HeaderLines(lines)| - 1] == "\n"
    ensures FooterLines(lines)[0] == "\n"
    ensures HeaderLines(lines)[..|HeaderLines(lines)| - 1] == Headers(lines)
    ensures FooterLines(lines)[1..] == Footers(lines)
  {
    PartitionCounts(lines);
  }

  /**
   * The split step: filter the lines, push the separator onto the header
   * lines and shift it in front of the footer lines.
   */
  method Classify(lines: seq<string>) returns (headerLines: seq<string>, footerLines: seq<string>)
    ensures headerLines == HeaderLines(lines) && footerLines == FooterLines(lines)
    ensures |headerLines| + |footerLines| == |lines| + 2
    ensures headerLines[|headerLines| - 1] == "\n" && footerLines[0] == "\n"
    ensures Interleaves(lines, headerLines[..|headerLines| - 1], footerLines[1..])
    ensures forall x :: x in headerLines[..|headerLines| - 1] <==> x in lines && IsHeaderLine(x)
    ensures forall x :: x in footerLines[1..] <==> x in lines && !IsHeaderLine(x)
  {
    headerLines := Headers(lines);
    footerLines := Footers(lines);
    headerLines := headerLines + [Separator];
    footerLines := [Separator] + footerLines;
    SeparatedLengths(lines);
    PartitionInterleaves(lines);
  }

  /** Three lines classified header, code, header split into `[t, u]` and `[p]`. */
  lemma ThreeLines(t: string, p: string, u: string)
    requires IsHeaderLine(t) && !IsHeaderLine(p) && IsHeaderLine(u)
    ensures Headers([t, p, u]) == [t, u] && Footers([t, p, u]) == [p]
  {
    assert [t, p, u][1..] == [p, u] && [p, u][1..] == [u] && [u][1..] == [];
    assert Headers([u]) == [u] && Footers([u]) == [];
    assert Headers([p, u]) == [u] && Footers([p, u]) == [p] + [];
  }

  /** The three-line example: two header lines around a line of code. */
  lemma ExampleCartridge()
    ensures HeaderLines(["// title: Demo", "print(1)", "// author: Jane"])
         == ["// title: Demo", "// author: Jane", "\n"]
    ensures FooterLines(["// title: Demo", "print(1)", "// author: Jane"]) == ["\n", "print(1)"]
  {
    SampleTitleAndAuthor();
    SampleCode();
    ThreeLines("// title: Demo", "print(1)", "// author: Jane");
  }

  /** An empty cartridge yields just the two separators. */
  lemma EmptyCartridge()
    ensures HeaderLines([]) == ["\n"] && FooterLines([]) == ["\n"]
  {
  }
}
