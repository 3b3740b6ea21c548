/** The article list (scripts/generate-articles.js): the markdown files of
    the content directory, as `readdirSync` lists them, without `index.md`
    and hidden files. */
module ArticleFiles {
  import opened JsText
  import opened Seqs

  /** The test of lines 20-22; case-sensitive, as `endsWith` and
      `startsWith` are. */
  predicate IsArticleFile(file: string) {
    EndsWith(file, ".md") && file != "index.md" && !StartsWith(file, ".")
  }

  /** Lines 19-23: exactly the article files of the input, in input order
      (every output element is an input element), never longer than the
      input. */
  function MarkdownFiles(files: seq<string>): (r: seq<string>)
    ensures forall f :: f in r <==> f in files && EndsWith(f, ".md") && f != "index.md" && !StartsWith(f, ".")
    ensures IsSubsequence(r, files)
    ensures |r| <= |files|
  {
    Filter(files, IsArticleFile)
  }

  /** Filtering an already filtered list changes nothing. */
  lemma MarkdownFilesIdempotent(files: seq<string>)
    ensures MarkdownFiles(MarkdownFiles(files)) == MarkdownFiles(files)
  {
    FilterIdempotent(files, IsArticleFile);
  }

  /** The match is case-sensitive, a hidden file is excluded even when it
      ends with '.md', and 'index.md' is excluded. */
  lemma MarkdownFilesExamples()
    ensures MarkdownFiles(["README.MD", ".draft.md", "index.md", "intro.md"]) == ["intro.md"]
  {
    assert !EndsWith("README.MD", ".md") by {
      assert "README.MD"[6..] != ".md" by { assert "README.MD"[6..][1] == 'M'; }
    }
    assert StartsWith(".draft.md", ".");
    assert EndsWith("intro.md", ".md") by { assert "intro.md"[5..] == ".md"; }
    assert !StartsWith("intro.md", ".") by { assert "intro.md"[..1] == "i"; }
    var fs := ["README.MD", ".draft.md", "index.md", "intro.md"];
    assert fs[1..][1..][1..] == ["intro.md"];
    assert fs[1..][1..][1..][1..] == [];
  }
}
