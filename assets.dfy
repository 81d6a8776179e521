/**
 * Wrapping the files of the freshly rendered chunks in the compilation's
 * asset dictionary.
 *
 * The driver walks the chunks in order, skips every chunk that was not
 * rendered in this pass (a cached chunk), and wraps each file the other
 * chunks name, overwriting the asset's entry in place. `ApplyFiles` and
 * `ApplyChunks` are the value the dictionary holds afterwards; the lemmas
 * below say what that value is for each asset.
 */
module Assets {
  import opened Wrapping
  import opened Cartridge

  /** A chunk of the build: whether it was rendered in this pass, and its output files. */
  datatype Chunk = Chunk(rendered: bool, files: seq<string>)

  /** The compilation's asset dictionary, file name to content. */
  class Compilation {
    var assets: map<string, string>

    constructor (assets: map<string, string>)
      ensures this.assets == assets
    {
      this.assets := assets;
    }
  }

  /** Every file named by a rendered chunk is an asset. */
  predicate RenderedFilesPresent(m: map<string, string>, chunks: seq<Chunk>)
  {
    forall i, name | 0 <= i < |chunks| && chunks[i].rendered && name in chunks[i].files :: name in m
  }

  /** The dictionary after wrapping each of `files` in turn. */
  function ApplyFiles(m: map<string, string>, files: seq<string>, headerLines: seq<string>, footerLines: seq<string>)
    : (r: map<string, string>)
    requires forall name | name in files :: name in m
    ensures r.Keys == m.Keys
  {
    if files == [] then m
    else
      var prev := ApplyFiles(m, files[..|files| - 1], headerLines, footerLines);
      var name := files[|files| - 1];
      prev[name := Wrap(headerLines, footerLines, prev[name])]
  }

  /** The dictionary after the driver has handled each of `chunks` in turn. */
  function ApplyChunks(m: map<string, string>, chunks: seq<Chunk>, headerLines: seq<string>, footerLines: seq<string>)
    : (r: map<string, string>)
    requires RenderedFilesPresent(m, chunks)
    ensures r.Keys == m.Keys
  {
    if chunks == [] then m
    else
      var prev := ApplyChunks(m, chunks[..|chunks| - 1], headerLines, footerLines);
      var chunk := chunks[|chunks| - 1];
      if !chunk.rendered then prev
      else
        assert forall name | name in chunk.files :: name in m;
        ApplyFiles(prev, chunk.files, headerLines, footerLines)
  }

  /** How often `name` is listed among the files of rendered chunks. */
  function Occurrences(name: string, chunks: seq<Chunk>): nat
  {
    if chunks == [] then 0
    else
      var chunk := chunks[|chunks| - 1];
      Occurrences(name, chunks[..|chunks| - 1]) + (if chunk.rendered then multiset(chunk.files)[name] else 0)
  }

  /** The chunks that were rendered, in order. */
  function RenderedOnly(chunks: seq<Chunk>): (r: seq<Chunk>)
    ensures forall c :: c in r <==> c in chunks && c.rendered
  {
    if chunks == [] then []
    else
      var chunk := chunks[|chunks| - 1];
      RenderedOnly(chunks[..|chunks| - 1]) + (if chunk.rendered then [chunk] else [])
  }

  /** Wrapping a list of files wraps each asset once per time the list names it. */
  lemma {:induction false} ApplyFilesAt(m: map<string, string>, files: seq<string>, headerLines: seq<string>,
                                        footerLines: seq<string>, name: string)
    requires forall n | n in files :: n in m
    requires name in m
    ensures ApplyFiles(m, files, headerLines, footerLines)[name]
         == WrapTimes(headerLines, footerLines, m[name], multiset(files)[name])
    decreases |files|
  {
    if files != [] {
      var init, last := files[..|files| - 1], files[|files| - 1];
      assert files == init + [last];
      ApplyFilesAt(m, init, headerLines, footerLines, name);
    }
  }

  /**
   * After the driver, every asset is its old content wrapped once for each
   * time a rendered chunk lists it, one layer inside the next.
   */
  lemma {:induction false} ApplyChunksAt(m: map<string, string>, chunks: seq<Chunk>, headerLines: seq<string>,
                                         footerLines: seq<string>, name: string)
    requires RenderedFilesPresent(m, chunks)
    requires name in m
    ensures ApplyChunks(m, chunks, headerLines, footerLines)[name]
         == WrapTimes(headerLines, footerLines, m[name], Occurrences(name, chunks))
    decreases |chunks|
  {
    if chunks != [] {
      var init, chunk := chunks[..|chunks| - 1], chunks[|chunks| - 1];
      var prev := ApplyChunks(m, init, headerLines, footerLines);
      ApplyChunksAt(m, init, headerLines, footerLines, name);
      if chunk.rendered {
        ApplyFilesAt(prev, chunk.files, headerLines, footerLines, name);
        WrapTimesAdd(headerLines, footerLines, m[name], Occurrences(name, init), multiset(chunk.files)[name]);
      }
    }
  }

  /** A name no rendered chunk lists is counted zero times. */
  lemma {:induction false} OccurrencesZero(name: string, chunks: seq<Chunk>)
    requires forall i | 0 <= i < |chunks| && chunks[i].rendered :: name !in chunks[i].files
    ensures Occurrences(name, chunks) == 0
  {
    if chunks != [] {
      OccurrencesZero(name, chunks[..|chunks| - 1]);
    }
  }

  /** An asset that no rendered chunk lists keeps its content. */
  lemma UntouchedUnlessListed(m: map<string, string>, chunks: seq<Chunk>, headerLines: seq<string>,
                              footerLines: seq<string>, name: string)
    requires RenderedFilesPresent(m, chunks)
    requires name in m
    requires forall i | 0 <= i < |chunks| && chunks[i].rendered :: name !in chunks[i].files
    ensures ApplyChunks(m, chunks, headerLines, footerLines)[name] == m[name]
  {
    ApplyChunksAt(m, chunks, headerLines, footerLines, name);
    OccurrencesZero(name, chunks);
  }

  /** Keeping only the rendered chunks keeps the requirement on their files. */
  lemma RenderedOnlyPresent(m: map<string, string>, chunks: seq<Chunk>)
    requires RenderedFilesPresent(m, chunks)
    ensures RenderedFilesPresent(m, RenderedOnly(chunks))
  {
    var r := RenderedOnly(chunks);
    forall i, name | 0 <= i < |r| && r[i].rendered && name in r[i].files
      ensures name in m
    {
      assert r[i] in r;
      var j :| 0 <= j < |chunks| && chunks[j] == r[i];
    }
  }

  /** Dropping the chunks that were not rendered changes nothing. */
  lemma {:induction false} SkippedChunksContributeNothing(m: map<string, string>, chunks: seq<Chunk>,
                                                          headerLines: seq<string>, footerLines: seq<string>)
    requires RenderedFilesPresent(m, chunks)
    ensures RenderedFilesPresent(m, RenderedOnly(chunks))
    ensures ApplyChunks(m, chunks, headerLines, footerLines)
         == ApplyChunks(m, RenderedOnly(chunks), headerLines, footerLines)
    decreases |chunks|
  {
    RenderedOnlyPresent(m, chunks);
    if chunks != [] {
      var init, chunk := chunks[..|chunks| - 1], chunks[|chunks| - 1];
      assert RenderedFilesPresent(m, init);
      SkippedChunksContributeNothing(m, init, headerLines, footerLines);
      var r := RenderedOnly(chunks);
      if chunk.rendered {
        assert r == RenderedOnly(init) + [chunk];
        assert r[..|r| - 1] == RenderedOnly(init);
        assert r[|r| - 1] == chunk;
      } else {
        assert r == RenderedOnly(init);
      }
    }
  }

  /** `compilation.assets[fileName]` becomes the wrapped old content; no other asset changes. */
  method WrapFile(compilation: Compilation, fileName: string, headerLines: seq<string>, footerLines: seq<string>)
    requires fileName in compilation.assets
    modifies compilation
    ensures compilation.assets.Keys == old(compilation.assets).Keys
    ensures compilation.assets[fileName] == Wrap(headerLines, footerLines, old(compilation.assets)[fileName])
    ensures forall other | other in old(compilation.assets) && other != fileName ::
      compilation.assets[other] == old(compilation.assets)[other]
  {
    compilation.assets := compilation.assets[fileName := Wrap(headerLines, footerLines, compilation.assets[fileName])];
  }

  /** Wraps every file of every rendered chunk, skipping the chunks that were not rendered. */
  method WrapChunks(compilation: Compilation, chunks: seq<Chunk>, headerLines: seq<string>, footerLines: seq<string>)
    requires RenderedFilesPresent(compilation.assets, chunks)
    modifies compilation
    ensures compilation.assets == ApplyChunks(old(compilation.assets), chunks, headerLines, footerLines)
    ensures forall name | name in old(compilation.assets) ::
      compilation.assets[name] == WrapTimes(headerLines, footerLines, old(compilation.assets)[name], Occurrences(name, chunks))
  {
    ghost var start := compilation.assets;
    for i := 0 to |chunks|
      invariant RenderedFilesPresent(start, chunks[..i])
      invariant compilation.assets == ApplyChunks(start, chunks[..i], headerLines, footerLines)
    {
      assert chunks[..i + 1][..i] == chunks[..i];
      var chunk := chunks[i];
      if !chunk.rendered {
        continue;
      }
      ghost var before := compilation.assets;
      assert forall name | name in chunk.files :: name in before;
      for j := 0 to |chunk.files|
        invariant compilation.assets == ApplyFiles(before, chunk.files[..j], headerLines, footerLines)
      {
        assert chunk.files[..j + 1][..j] == chunk.files[..j];
        WrapFile(compilation, chunk.files[j], headerLines, footerLines);
      }
      assert chunk.files[..|chunk.files|] == chunk.files;
    }
    assert chunks[..|chunks|] == chunks;
    forall name | name in start
      ensures compilation.assets[name] == WrapTimes(headerLines, footerLines, start[name], Occurrences(name, chunks))
    {
      ApplyChunksAt(start, chunks, headerLines, footerLines, name);
    }
  }

  /**
   * What runs once the cartridge has been read: split its lines, then wrap
   * the files of the rendered chunks with the two lists.
   */
  method OnCartridgeRead(compilation: Compilation, lines: seq<string>, chunks: seq<Chunk>)
    requires RenderedFilesPresent(compilation.assets, chunks)
    modifies compilation
    ensures compilation.assets == ApplyChunks(old(compilation.assets), chunks, HeaderLines(lines), FooterLines(lines))
  {
    var headerLines, footerLines := Classify(lines);
    WrapChunks(compilation, chunks, headerLines, footerLines);
  }
}
