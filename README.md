# TIC-80 webpack plugin: cartridge wrapping, modelled in Dafny

The plugin reads a TIC-80 cartridge file (default `cartridge.js`). It splits
the file's lines into header lines and footer lines. Header lines are the
metadata comments such as `// title: Demo`. Footer lines are everything else.
It then wraps every output file of the chunks rendered in the current build.
The new content is the joined header lines, then the old file content, then
the joined footer lines.

This project models that transform and proves what it does:

- `header_pattern.dfy` (module `HeaderPattern`): the header-line pattern as a
  deterministic scanner (`IsHeaderLine`). It is proved equal to the pattern
  stated with existentials (`MatchesPattern`), in both directions.
- `cartridge.dfy` (module `Cartridge`): the two filters and the separators
  added after them. `Classify` is the step that pushes and unshifts the
  separators.
- `wrapping.dfy` (module `Wrapping`): `Array.prototype.join`, the wrap of one
  content, and repeated wrapping.
- `assets.dfy` (module `Assets`): the asset dictionary as a class
  `Compilation` with a `map<string, string>` field. `WrapFile` and
  `WrapChunks` update it in place. `ApplyFiles` and `ApplyChunks` specify the
  resulting dictionary, and the lemmas beside them say what each asset ends
  up holding.
- `plugin_options.dfy` (module `PluginOptions`): choosing the cartridge path.

The separator that the code pushes onto the header lines and shifts onto the
footer lines is the string `"\n"` (src/index.js:49-50). It is not an empty
string. The model follows the code. Because joining adds a further `"\n"`,
with at least one header line, the header block ends in `"\n\n"`; with
none it is `"\n"` alone. Likewise, with at least one footer line, the footer
block starts with `"\n\n"`; with none it is `"\n"` alone. For content that
neither starts nor ends with a line feed, this leaves one blank line between
the header and the content and one between the content and the footer. An
empty cartridge wraps `X` into `"\n" + X + "\n"`.

A chunk is the datatype `Assets.Chunk(rendered, files)`, standing for the
`rendered` flag and `files` list the driver reads from each chunk
(src/index.js:68, 74).

## Model

| member | source | states |
|---|---|---|
| HeaderPattern.SkipSpaces | src/index.js:21 | a `\s*` run: the returned index ends a maximal run of whitespace starting at `i` |
| HeaderPattern.HeaderLineIffPattern | src/index.js:21 | a line is a header line iff optional whitespace, `//`, optional whitespace, one of title/author/desc/script/input/saveid in any letter case, and `:` start it (both directions) |
| HeaderPattern.IsSpace | src/index.js:21 | the characters `\s` accepts; none of them is a letter, `/` or `:`, so the greedy `\s*` runs never need to give characters back |
| HeaderPattern.LowerAscii | src/index.js:21 | the `i` flag's folding of one character: a lower-case letter comes only from an ASCII letter |
| HeaderPattern.Lower | src/index.js:21 | the `i` flag's folding of a string; what it accepts is stated by `LowerIffAnyCase` |
| HeaderPattern.UpperAscii | src/index.js:21 | the other case of a keyword letter: an upper-case ASCII letter that folds back to it |
| HeaderPattern.LowerIffAnyCase | src/index.js:21 | a string folds to a lower-case keyword iff it has the keyword's length and each character is the keyword's letter in lower or upper case (both directions) |
| HeaderPattern.IsHeaderLine | src/index.js:21 | `HEADER_REGEX.test(line)`: a header line has at least 7 characters (`//desc:` is the shortest); `HeaderLineIffPattern` characterises it exactly |
| HeaderPattern.AnchoredAtLineStart | src/index.js:21 | the pattern is anchored: a line starting with a character that is neither whitespace nor `/` is not a header line |
| HeaderPattern.SampleTitleAndAuthor | src/index.js:21 | `// title: Demo` and `// author: Jane` are header lines |
| HeaderPattern.SampleWideSpaces | src/index.js:21 | `"\u{FEFF}\u{3000}// input: x"` is a header line: a byte-order mark and an ideographic space before `//` count as whitespace |
| HeaderPattern.SampleDotlessI | src/index.js:21 | `// t\u{0131}tle: x` (dotless i) is rejected: without the `u` flag no non-ASCII letter folds onto a keyword letter |
| HeaderPattern.SampleCode | src/index.js:21 | `print(1)` is not a header line |
| HeaderPattern.SampleUpperCase | src/index.js:21 | leading whitespace and an upper-case keyword (`SaveID`) are accepted |
| HeaderPattern.SampleLongerWord | src/index.js:21 | `// titles: x` is rejected: the keyword must be followed directly by `:` |
| Cartridge.Headers | src/index.js:46 | the header filter keeps exactly the input lines that are header lines, and no more lines than the input has |
| Cartridge.Footers | src/index.js:47 | the footer filter keeps exactly the input lines that are not header lines |
| Cartridge.HeaderLines | src/index.js:49 | after `push('\n')`: one more element than the filtered header lines, `"\n"` last, the filtered lines before it |
| Cartridge.FooterLines | src/index.js:50 | after `unshift('\n')`: one more element than the filtered footer lines, `"\n"` first, the filtered lines after it |
| Cartridge.PartitionInterleaves | src/index.js:46-47 | the input is an order-preserving interleaving of the two filtered lists |
| Cartridge.PartitionCounts | src/index.js:46-47 | every input line lands in exactly one list, as many times as it occurs; the lengths add up to the input's |
| Cartridge.PartitionUnique | src/index.js:46-47 | the filtered lists are the only order-preserving split into header and non-header lines |
| Cartridge.SeparatedLengths | src/index.js:49-50 | after the separators, the lengths add up to the input's plus 2; the header lines end with `"\n"`, the footer lines start with it, and the filtered lists sit in between |
| Cartridge.Classify | src/index.js:46-50 | the split step returns the two lists with separators, with the interleaving, membership and length properties above |
| Cartridge.ThreeLines | src/index.js:46-47 | lines classified header, code, header are filtered into the two header lines and the code line |
| Cartridge.ExampleCartridge | src/index.js:46-50 | `["// title: Demo", "print(1)", "// author: Jane"]` gives header lines `["// title: Demo", "// author: Jane", "\n"]` and footer lines `["\n", "print(1)"]` |
| Cartridge.EmptyCartridge | src/index.js:49-50 | an empty cartridge gives `["\n"]` and `["\n"]` |
| Wrapping.Join | src/index.js:88 | `Array.prototype.join`: no parts give `""`, and every part fits in the result |
| Wrapping.JoinEnds | src/index.js:88-90 | a join starts with its first part and ends with its last part |
| Wrapping.Wrap | src/index.js:87-91 | the new asset value: its length is the two joined blocks' lengths plus the old content's |
| Wrapping.JoinConcat | src/index.js:88-90 | joining two non-empty lists is their joins with one separator between |
| Wrapping.WrapSections | src/index.js:87-91 | the wrapped content is the joined header lines, then the old content unchanged, then the joined footer lines |
| Wrapping.JoinPushed | src/index.js:49 | pushing the separator makes the joined header lines end in two line feeds (one when there are no header lines) |
| Wrapping.JoinShifted | src/index.js:50 | shifting the separator in makes the joined footer lines start with two line feeds (one when there are no footer lines) |
| Wrapping.BlockShapes | src/index.js:88-90 | a cartridge's header block is its joined header lines plus `"\n\n"` (or `"\n"` alone), its footer block `"\n\n"` plus its joined footer lines (or `"\n"` alone) |
| Wrapping.EmptyCartridgeWrap | src/index.js:88-90 | with an empty cartridge, content `X` becomes `"\n" + X + "\n"` |
| Wrapping.WrapTimesLayers | src/index.js:87-91 | wrapping `k` times puts `k` header blocks before and `k` footer blocks after the content |
| Wrapping.WrapTimesAdd | src/index.js:87-91 | wrapping `a` times and then `b` times is wrapping `a + b` times |
| Wrapping.WrapTimesLength | src/index.js:87-91 | each wrapping adds the lengths of both blocks |
| Wrapping.WrapTimesGrows | src/index.js:87-91 | with a non-empty block, each layer makes the content at least one character longer |
| Wrapping.WrapTimesDistinct | src/index.js:87-91 | with a non-empty block, wrapping `a` times equals wrapping `b` times iff `a == b` |
| Wrapping.NotIdempotent | src/index.js:87-91 | with a cartridge's lines, content wrapped `a` and `b` times is equal iff `a == b` |
| Wrapping.WrapTwiceDiffers | src/index.js:87-91 | wrapping twice differs from wrapping once |
| Assets.ApplyFiles | src/index.js:74-76 | wrapping a list of files keeps the set of asset names |
| Assets.ApplyChunks | src/index.js:67-77 | the chunk loop keeps the set of asset names |
| Assets.RenderedOnly | src/index.js:68-72 | the chunks kept are exactly the rendered ones |
| Assets.ApplyFilesAt | src/index.js:74-76 | after one chunk's files, each asset is its old content wrapped once per time the chunk lists it |
| Assets.ApplyChunksAt | src/index.js:66-78 | after the chunk loop, each asset is its old content wrapped once per listing in a rendered chunk, one layer inside the next |
| Assets.OccurrencesZero | src/index.js:67-77 | a name no rendered chunk lists is wrapped zero times |
| Assets.UntouchedUnlessListed | src/index.js:67-77 | an asset no rendered chunk lists keeps its content |
| Assets.SkippedChunksContributeNothing | src/index.js:68-72 | dropping the chunks that were not rendered gives the same dictionary |
| Assets.Compilation.constructor | src/index.js:87 | a compilation holding the given asset dictionary (`compilation.assets`) |
| Assets.WrapFile | src/index.js:86-92 | the named asset becomes its wrapped old content; the other assets and the set of names are unchanged |
| Assets.WrapChunks | src/index.js:66-78 | the dictionary becomes `ApplyChunks` of the old one, so each asset is wrapped once per listing in a rendered chunk |
| Assets.OnCartridgeRead | src/index.js:45-54 | once the lines are read, the split and the chunk loop leave the dictionary as `ApplyChunks` with the cartridge's header and footer lines |
| PluginOptions.CartridgePath | src/index.js:34 | the path is never empty; a present, non-empty option is used as given; an absent or empty one falls back to `cartridge.js` |

## Left out

- Reading the cartridge with `fs.createReadStream` and `readline` (src/index.js:39-44) is I/O. The model takes the lines already split, with the line terminators removed. A file that cannot be read is not modelled.
- The webpack hook wiring (`compilation.tap`, `optimizeChunkAssets.tapAsync`, the `done` callback) is host lifecycle and asynchronous plumbing. `OnCartridgeRead` stands for the `close` handler's body.
- `ConcatSource` from `webpack-sources` is a foreign library. Assets are modelled as strings, and `ConcatSource` as string concatenation.
- Options validation through `schema-utils` (src/index.js:9-17, 29) is a foreign library call. The model only reflects that `cartridgePath` is an optional string.
- `path.resolve` against `compiler.context` is a filesystem path library call. The model stops at the configured path.
- HeaderPattern.IsSpace: lists ECMAScript's whitespace and line-terminator code points as of current Unicode. The set of Unicode space separators may differ across JavaScript engine versions, so this is an approximation of `\s`.
- HeaderPattern.LowerAscii: folds only ASCII letters. This is enough for the `i` flag here, because the keywords are ASCII and JavaScript's non-Unicode case folding never maps a non-ASCII character to an ASCII letter.
- Assets.WrapFile: requires the file name to be an asset already. With a missing name, the source would build a `ConcatSource` around `undefined`, and that case is not modelled.
