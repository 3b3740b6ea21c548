/** The article page (src/components/ArticleDetail.tsx): loading an article
    by slug, and the `a` and `code` renderer overrides handed to the
    markdown renderer. */
module ArticleDetail {
  import opened Wrappers
  import opened JsText

  const LanguagePrefix := "language-"

  /** `\w`: an ASCII letter, digit or underscore. */
  predicate IsWordChar(c: char) {
    ('a' <= c <= 'z') || ('A' <= c <= 'Z') || ('0' <= c <= '9') || c == '_'
  }

  /** `/language-(\w+)/` matches starting at `j`. */
  predicate MatchesAt(s: string, j: nat) {
    OccursAt(s, LanguagePrefix, j) && j + |LanguagePrefix| < |s| && IsWordChar(s[j + |LanguagePrefix|])
  }

  /** The leftmost match position at or after `i`. */
  function FindMatch(s: string, i: nat): Option<nat>
    requires i <= |s|
    decreases |s| - i
  {
    if MatchesAt(s, i) then Some(i)
    else if i == |s| then None
    else FindMatch(s, i + 1)
  }

  /** The search finds a match, and none before it, or there is none. */
  lemma {:induction false} FindMatchSpec(s: string, i: nat)
    requires i <= |s|
    decreases |s| - i
    ensures var r := FindMatch(s, i);
      && (r.Some? ==> i <= r.value && MatchesAt(s, r.value))
      && (r.Some? ==> forall j :: i <= j < r.value ==> !MatchesAt(s, j))
      && (r.None? ==> forall j :: i <= j <= |s| ==> !MatchesAt(s, j))
  {
    if !MatchesAt(s, i) && i < |s| {
      FindMatchSpec(s, i + 1);
    }
  }

  /** `\w+` at `i`, taken greedily. */
  function WordRun(s: string, i: nat): string
    requires i <= |s|
    decreases |s| - i
  {
    if i < |s| && IsWordChar(s[i]) then [s[i]] + WordRun(s, i + 1) else []
  }

  /** The run is the longest stretch of word characters starting at `i`. */
  lemma {:induction false} WordRunSpec(s: string, i: nat)
    requires i <= |s|
    decreases |s| - i
    ensures var r := WordRun(s, i);
      && i + |r| <= |s| && r == s[i..i + |r|]
      && (forall k :: 0 <= k < |r| ==> IsWordChar(r[k]))
      && (i + |r| == |s| || !IsWordChar(s[i + |r|]))
  {
    if i < |s| && IsWordChar(s[i]) {
      WordRunSpec(s, i + 1);
      var t := WordRun(s, i + 1);
      assert s[i..i + 1 + |t|] == [s[i]] + s[i + 1..i + 1 + |t|];
    }
  }

  /** Lines 118-119: the capture group of `/language-(\w+)/` run on
      `className || ''`. */
  function CodeLanguage(className: Option<string>): Option<string> {
    var s := OrElse(className, "");
    FindMatchSpec(s, 0);
    match FindMatch(s, 0)
    case None => None
    case Some(j) => Some(WordRun(s, j + |LanguagePrefix|))
  }

  /** No language iff no 'language-' is followed by a word character;
      otherwise the maximal word run after the first such one, never
      empty. */
  lemma CodeLanguageSpec(className: Option<string>)
    ensures var s := OrElse(className, ""); var r := CodeLanguage(className);
      && (r.None? <==> forall j :: 0 <= j <= |s| ==> !MatchesAt(s, j))
      && (r.Some? ==> exists j :: 0 <= j <= |s| && MatchesAt(s, j) && (forall k :: 0 <= k < j ==> !MatchesAt(s, k))
                                && r.value == WordRun(s, j + |LanguagePrefix|))
      && (r.Some? ==> |r.value| >= 1)
  {
    var s := OrElse(className, "");
    FindMatchSpec(s, 0);
    if FindMatch(s, 0).Some? {
      var j := FindMatch(s, 0).value;
      WordRunSpec(s, j + |LanguagePrefix|);
      assert MatchesAt(s, j);
    }
  }

  /** `.replace(/\n$/, '')`: one trailing newline is removed, if any. */
  function StripTrailingNewline(s: string): (r: string)
    ensures EndsWith(s, "\n") ==> r + "\n" == s
    ensures !EndsWith(s, "\n") ==> r == s
  {
    if EndsWith(s, "\n") then s[..|s| - 1] else s
  }

  /** Only one newline goes: a chart ending in two keeps one. */
  lemma StripOnlyOneNewline(s: string)
    ensures StripTrailingNewline(s + "\n\n") == s + "\n"
    ensures StripTrailingNewline(s + "\n") == s
  {
    assert (s + "\n\n")[..|s| + 1] == s + "\n";
  }

  /** What the `code` override renders. */
  datatype CodeRender =
    | MermaidDiagram(chart: string)
    | PlainCode(className: Option<string>, text: string)

  /** Lines 117-130: a Mermaid diagram exactly when the language is
      'mermaid'; any other block is rendered as code with its class name
      and text untouched. */
  function RenderCode(className: Option<string>, text: string): (r: CodeRender)
    ensures r.MermaidDiagram? <==> CodeLanguage(className) == Some("mermaid")
    ensures r.MermaidDiagram? ==> r.chart == StripTrailingNewline(text)
    ensures r.PlainCode? ==> r.className == className && r.text == text
  {
    if CodeLanguage(className) == Some("mermaid") then MermaidDiagram(StripTrailingNewline(text))
    else PlainCode(className, text)
  }

  /** The leftmost match is found wherever it is. */
  lemma {:induction false} FindMatchFirst(s: string, i: nat, j: nat)
    requires i <= j <= |s| && MatchesAt(s, j)
    requires forall k :: i <= k < j ==> !MatchesAt(s, k)
    ensures FindMatch(s, i) == Some(j)
    decreases j - i
  {
    if i < j {
      FindMatchFirst(s, i + 1, j);
    }
  }

  /** The word run from `i` ends at the first non-word character `e`. */
  lemma {:induction false} WordRunUpTo(s: string, i: nat, e: nat)
    requires i <= e <= |s| && (e == |s| || !IsWordChar(s[e]))
    requires forall k :: i <= k < e ==> IsWordChar(s[k])
    ensures WordRun(s, i) == s[i..e]
    decreases e - i
  {
    if i < e {
      WordRunUpTo(s, i + 1, e);
      assert s[i..e] == [s[i]] + s[i + 1..e];
    }
  }

  /** A match needs the prefix's first letter where it starts. */
  lemma NoMatchWithoutL(s: string, i: nat, j: nat)
    requires i <= j <= |s|
    requires forall k :: i <= k < j ==> s[k] != 'l'
    ensures forall k :: i <= k < j ==> !MatchesAt(s, k)
  {
    forall k | i <= k < j ensures !MatchesAt(s, k) {
      if k + 9 <= |s| {
        assert s[k..k + 9][0] == s[k];
      }
    }
  }

  /** 'language-mermaid' is a diagram; without a class name there is no
      language. */
  lemma MermaidClass()
    ensures CodeLanguage(Some("language-mermaid")) == Some("mermaid")
    ensures CodeLanguage(None) == None
  {
    var a := "language-mermaid";
    assert MatchesAt(a, 0) by { assert a[0..9] == LanguagePrefix; }
    assert FindMatch(a, 0) == Some(0);
    assert CodeLanguage(Some(a)) == Some(WordRun(a, 9));
    WordRunUpTo(a, 9, |a|);
    assert WordRun(a, 9) == a[9..16] == "mermaid";
    assert FindMatch("", 0) == None;
  }

  /** The word run is taken whole: 'language-mermaidx' is not a diagram. */
  lemma LongerLanguageIsNotMermaid()
    ensures CodeLanguage(Some("language-mermaidx")) == Some("mermaidx")
  {
    var b := "language-mermaidx";
    assert MatchesAt(b, 0) by { assert b[0..9] == LanguagePrefix; }
    assert FindMatch(b, 0) == Some(0);
    assert CodeLanguage(Some(b)) == Some(WordRun(b, 9));
    WordRunUpTo(b, 9, |b|);
    assert WordRun(b, 9) == b[9..17] == "mermaidx";
  }

  /** The leftmost match wins: a later 'language-mermaid' loses to an
      earlier language. */
  lemma LeftmostLanguageWins()
    ensures CodeLanguage(Some("language-js language-mermaid")) == Some("js")
  {
    var c := "language-js language-mermaid";
    assert MatchesAt(c, 0) by { assert c[0..9] == LanguagePrefix; }
    assert FindMatch(c, 0) == Some(0);
    WordRunUpTo(c, 9, 11);
    assert c[9..11] == "js";
  }

  const SkippedExample := "language-- language-mermaid"

  lemma SkippedExampleMatch()
    ensures FindMatch(SkippedExample, 0) == Some(11)
  {
    var d := SkippedExample;
    assert !MatchesAt(d, 0) by { assert !IsWordChar(d[9]); }
    NoMatchWithoutL(d, 1, 11);
    assert MatchesAt(d, 11) by { assert d[11..20] == LanguagePrefix; }
    FindMatchFirst(d, 0, 11);
  }

  lemma SkippedExampleRun()
    ensures WordRun(SkippedExample, 20) == "mermaid"
  {
    var d := SkippedExample;
    WordRunUpTo(d, 20, 27);
    assert d[20..27] == "mermaid";
  }

  /** A 'language-' followed by a non-word character is skipped. */
  lemma NonWordAfterPrefixSkipped()
    ensures CodeLanguage(Some("language-- language-mermaid")) == Some("mermaid")
  {
    SkippedExampleMatch();
    SkippedExampleRun();
    assert CodeLanguage(Some(SkippedExample)) == Some(WordRun(SkippedExample, 20));
  }

  /** Line 116: the link override receives `href || ''`. */
  function LinkHref(href: Option<string>): (r: string)
    ensures href.Some? ==> r == href.value
    ensures href.None? ==> r == ""
  {
    OrElse(href, "")
  }

  /** The value a failed load throws: an `Error` with a message, or
      something else. */
  datatype Thrown = ErrorValue(message: string) | OtherValue

  /** The outcome of fetching `/content/<slug>.md` and parsing it. */
  datatype ArticleFetch =
    | Loaded(frontMatter: seq<(string, string)>, content: string)
    | NotOk
    | Threw(thrown: Thrown)

  datatype Article = Article(slug: string, frontMatter: seq<(string, string)>, content: string)

  /** The `article`, `loading` and `error` state. */
  class ArticlePage {
    var article: Option<Article>
    var loading: bool
    var error: Option<string>

    /** Lines 28-30. */
    constructor ()
      ensures article.None? && loading && error.None?
    {
      article := None;
      loading := true;
      error := None;
    }

    /** `loadArticle` (lines 33-59). A missing or empty slug is an error
        without a fetch; a non-ok response throws 'Article not found'; a
        thrown `Error` shows its message and anything else a generic one.
        Loading ends in every case. */
    method Load(slug: Option<string>, fetch: ArticleFetch)
      modifies this
      ensures !loading
      ensures !Truthy(slug) ==> error == Some("No article specified") && article == old(article)
      ensures Truthy(slug) && fetch.Loaded? ==>
        article == Some(Article(slug.value, fetch.frontMatter, fetch.content)) && error == old(error)
      ensures Truthy(slug) && fetch.NotOk? ==> error == Some("Article not found") && article == old(article)
      ensures Truthy(slug) && fetch.Threw? && fetch.thrown.ErrorValue? ==>
        error == Some(fetch.thrown.message) && article == old(article)
      ensures Truthy(slug) && fetch.Threw? && fetch.thrown.OtherValue? ==>
        error == Some("Failed to load article") && article == old(article)
    {
      if !Truthy(slug) {
        error := Some("No article specified");
        loading := false;
        return;
      }
      var thrown: Option<Thrown> := None;
      if fetch.NotOk? {
        thrown := Some(ErrorValue("Article not found"));
      } else if fetch.Threw? {
        thrown := Some(fetch.thrown);
      } else {
        article := Some(Article(slug.value, fetch.frontMatter, fetch.content));
      }
      if thrown.Some? {
        error := Some(if thrown.value.ErrorValue? then thrown.value.message else "Failed to load article");
      }
      loading := false;
    }
  }

  /** What the page shows (lines 64-90). */
  datatype PageView = LoadingView | ErrorView(message: string) | ArticleView(article: Article)

  /** Loading first; then an error, or 'Article not found' when there is
      neither an error nor an article; otherwise the article. */
  function ViewOf(loading: bool, error: Option<string>, article: Option<Article>): (r: PageView)
    ensures r.LoadingView? <==> loading
    ensures r.ArticleView? <==> !loading && !Truthy(error) && article.Some?
    ensures r.ArticleView? ==> r.article == article.value
    ensures r.ErrorView? && Truthy(error) ==> r.message == error.value
    ensures r.ErrorView? && !Truthy(error) ==> r.message == "Article not found"
  {
    if loading then LoadingView
    else if Truthy(error) || article.None? then ErrorView(OrElse(error, "Article not found"))
    else ArticleView(article.value)
  }
}
