/**
 * Wrapping one asset's content between the cartridge's header and footer.
 *
 * The header lines and the footer lines are each joined with `"\n"`; the new
 * content is the joined header lines, then the old content untouched, then
 * the joined footer lines. Wrapping an asset again puts a further layer
 * around the previous result.
 */
module Wrapping {
  import opened Cartridge

  /** `parts.join(sep)`: the parts with `sep` between neighbours, `""` for no parts. */
  function Join(parts: seq<string>, sep: string): (r: string)
    ensures parts == [] ==> r == ""
    ensures forall k | 0 <= k < |parts| :: |r| >= |parts[k]|
  {
    if |parts| == 0 then ""
    else if |parts| == 1 then parts[0]
    else parts[0] + sep + Join(parts[1..], sep)
  }

  /** Joining two non-empty lists puts one separator between their joins. */
  lemma {:induction false} JoinConcat(a: seq<string>, b: seq<string>, sep: string)
    requires a != [] && b != []
    ensures Join(a + b, sep) == Join(a, sep) + sep + Join(b, sep)
    decreases |a|
  {
    if |a| == 1 {
      assert (a + b)[1..] == b;
    } else {
      assert (a + b)[1..] == a[1..] + b;
      JoinConcat(a[1..], b, sep);
    }
  }

  /** Joining starts with the first part and ends with the last one. */
  lemma {:induction false} JoinEnds(parts: seq<string>, sep: string)
    requires parts != []
    ensures var r := Join(parts, sep);
      && r[..|parts[0]|] == parts[0]
      && r[|r| - |parts[|parts| - 1]|..] == parts[|parts| - 1]
  {
    if |parts| > 1 {
      JoinEnds(parts[1..], sep);
    }
  }

  /** The new content of an asset: joined header lines, old content, joined footer lines. */
  function Wrap(headerLines: seq<string>, footerLines: seq<string>, content: string): (r: string)
    ensures |r| == |Join(headerLines, "\n")| + |content| + |Join(footerLines, "\n")|
  {
    Join(headerLines, "\n") + content + Join(footerLines, "\n")
  }

  /**
   * The old content reappears unchanged as the middle section of the wrapped
   * content, with the joined header lines before it and the joined footer
   * lines after it.
   */
  lemma WrapSections(headerLines: seq<string>, footerLines: seq<string>, content: string)
    ensures var r, h, f := Wrap(headerLines, footerLines, content), Join(headerLines, "\n"), Join(footerLines, "\n");
      && r[..|h|] == h
      && r[|h|..|h| + |content|] == content
      && r[|h| + |content|..] == f
  {
  }

  /** The header block of a cartridge: its joined header lines, separator included. */
  function HeaderBlock(lines: seq<string>): string
  {
    Join(HeaderLines(lines), "\n")
  }

  /** The footer block of a cartridge: its joined footer lines, separator included. */
  function FooterBlock(lines: seq<string>): string
  {
    Join(FooterLines(lines), "\n")
  }

  /** Pushing the separator adds two line feeds to a non-empty join (one joining, one pushed). */
  lemma JoinPushed(parts: seq<string>)
    ensures Join(parts + [Separator], "\n") == if parts == [] then "\n" else Join(parts, "\n") + "\n\n"
  {
    if parts != [] {
      JoinConcat(parts, [Separator], "\n");
    }
  }

  /** Shifting the separator in adds two line feeds in front of a non-empty join. */
  lemma JoinShifted(parts: seq<string>)
    ensures Join([Separator] + parts, "\n") == if parts == [] then "\n" else "\n\n" + Join(parts, "\n")
  {
    if parts != [] {
      JoinConcat([Separator], parts, "\n");
    }
  }

  /**
   * Because the separator is `"\n"` and joining adds another `"\n"`, the
   * header block is the joined header lines followed by two line feeds (a
   * single one when there are no header lines), and symmetrically for the
   * footer block.
   */
  lemma BlockShapes(lines: seq<string>)
    ensures HeaderBlock(lines) ==
      if Headers(lines) == [] then "\n" else Join(Headers(lines), "\n") + "\n\n"
    ensures FooterBlock(lines) ==
      if Footers(lines) == [] then "\n" else "\n\n" + Join(Footers(lines), "\n")
  {
    JoinPushed(Headers(lines));
    JoinShifted(Footers(lines));
  }

  /** An empty cartridge wraps content `x` into `"\n" + x + "\n"`. */
  lemma EmptyCartridgeWrap(x: string)
    ensures Wrap(HeaderLines([]), FooterLines([]), x) == "\n" + x + "\n"
  {
    EmptyCartridge();
  }

  /** `content` wrapped `k` times, each layer around the previous one. */
  function WrapTimes(headerLines: seq<string>, footerLines: seq<string>, content: string, k: nat): string
  {
    if k == 0 then content else Wrap(headerLines, footerLines, WrapTimes(headerLines, footerLines, content, k - 1))
  }

  /** `s` written `k` times in a row. */
  function Repeat(s: string, k: nat): string
  {
    if k == 0 then "" else s + Repeat(s, k - 1)
  }

  lemma {:induction false} RepeatSwap(s: string, k: nat)
    ensures Repeat(s, k) + s == s + Repeat(s, k)
  {
    if k > 0 {
      RepeatSwap(s, k - 1);
      calc {
        Repeat(s, k) + s;
        s + (Repeat(s, k - 1) + s);
        s + (s + Repeat(s, k - 1));
      }
    }
  }

  /** `k` wrappings put `k` copies of the header block before and `k` of the footer block after. */
  lemma {:induction false} WrapTimesLayers(headerLines: seq<string>, footerLines: seq<string>, content: string, k: nat)
    ensures WrapTimes(headerLines, footerLines, content, k)
         == Repeat(Join(headerLines, "\n"), k) + content + Repeat(Join(footerLines, "\n"), k)
  {
    if k > 0 {
      var h, f := Join(headerLines, "\n"), Join(footerLines, "\n");
      WrapTimesLayers(headerLines, footerLines, content, k - 1);
      RepeatSwap(f, k - 1);
      calc {
        WrapTimes(headerLines, footerLines, content, k);
        h + (Repeat(h, k - 1) + content + Repeat(f, k - 1)) + f;
        (h + Repeat(h, k - 1)) + content + (Repeat(f, k - 1) + f);
        Repeat(h, k) + content + (f + Repeat(f, k - 1));
      }
    }
  }

  /** Wrapping `a` times and then `b` times is wrapping `a + b` times. */
  lemma {:induction false} WrapTimesAdd(headerLines: seq<string>, footerLines: seq<string>, content: string, a: nat, b: nat)
    ensures WrapTimes(headerLines, footerLines, WrapTimes(headerLines, footerLines, content, a), b)
         == WrapTimes(headerLines, footerLines, content, a + b)
  {
    if b > 0 {
      WrapTimesAdd(headerLines, footerLines, content, a, b - 1);
    }
  }

  /** Each wrapping adds the length of both blocks. */
  lemma {:induction false} WrapTimesLength(headerLines: seq<string>, footerLines: seq<string>, content: string, k: nat)
    ensures |WrapTimes(headerLines, footerLines, content, k)|
         == |content| + k * (|Join(headerLines, "\n")| + |Join(footerLines, "\n")|)
  {
    if k > 0 {
      WrapTimesLength(headerLines, footerLines, content, k - 1);
    }
  }

  /** With at least one non-empty block, every layer makes the content longer. */
  lemma {:induction false} WrapTimesGrows(headerLines: seq<string>, footerLines: seq<string>, content: string, k: nat)
    requires Join(headerLines, "\n") != "" || Join(footerLines, "\n") != ""
    ensures |WrapTimes(headerLines, footerLines, content, k)| >= |content| + k
  {
    if k > 0 {
      WrapTimesGrows(headerLines, footerLines, content, k - 1);
    }
  }

  /** With at least one non-empty block, different numbers of layers give different content. */
  lemma WrapTimesDistinct(headerLines: seq<string>, footerLines: seq<string>, content: string, a: nat, b: nat)
    requires Join(headerLines, "\n") != "" || Join(footerLines, "\n") != ""
    ensures (WrapTimes(headerLines, footerLines, content, a)
             == WrapTimes(headerLines, footerLines, content, b)) <==> a == b
  {
    if a < b {
      WrapTimesAdd(headerLines, footerLines, content, a, b - a);
      WrapTimesGrows(headerLines, footerLines, WrapTimes(headerLines, footerLines, content, a), b - a);
    } else if b < a {
      WrapTimesAdd(headerLines, footerLines, content, b, a - b);
      WrapTimesGrows(headerLines, footerLines, WrapTimes(headerLines, footerLines, content, b), a - b);
    }
  }

  /**
   * Wrapping with a cartridge's lines is not idempotent: content wrapped a
   * different number of times is different content.
   */
  lemma NotIdempotent(lines: seq<string>, content: string, a: nat, b: nat)
    ensures (WrapTimes(HeaderLines(lines), FooterLines(lines), content, a)
             == WrapTimes(HeaderLines(lines), FooterLines(lines), content, b)) <==> a == b
  {
    BlockShapes(lines);
    WrapTimesDistinct(HeaderLines(lines), FooterLines(lines), content, a, b);
  }

  /** In particular, wrapping twice differs from wrapping once. */
  lemma WrapTwiceDiffers(lines: seq<string>, content: string)
    ensures Wrap(HeaderLines(lines), FooterLines(lines), Wrap(HeaderLines(lines), FooterLines(lines), content))
         != Wrap(HeaderLines(lines), FooterLines(lines), content)
  {
    NotIdempotent(lines, content, 1, 2);
  }
}
