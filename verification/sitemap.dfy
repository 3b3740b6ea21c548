/** The sitemap plugin (webpack/sitemap-plugin.js) up to the list of links
    it hands to the XML writer. Priorities are kept in tenths (0.8 is 8). */
module Sitemap {
  import opened Wrappers
  import opened JsText

  const DefaultBaseUrl := "https://aniongithub.github.io"
  const DefaultPriority: nat := 8
  const DefaultChangefreq := "monthly"
  const ArticlePriority: nat := 7

  /** The constructor's `options` argument; a key the caller supplies is
      `Some`, whatever its value. */
  datatype OptionsInput = OptionsInput(
    baseUrl: Option<string>,
    routes: Option<seq<string>>,
    articlesDataPath: Option<Option<string>>,
    priority: Option<nat>,
    changefreq: Option<string>)

  /** `this.options`; `articlesDataPath` is None for `null`. */
  datatype Options = Options(
    baseUrl: string,
    routes: seq<string>,
    articlesDataPath: Option<string>,
    priority: nat,
    changefreq: string)

  datatype Link = Link(url: string, changefreq: string, priority: nat)

  /** A static route descriptor of lines 33-38. */
  datatype Route = Route(url: string, changefreq: string, priority: nat)

  /** A JSON value as far as the plugin looks at it. */
  datatype Json = JString(value: string) | JArray(elems: seq<Json>) | JOther

  /** What reading the articles data file gives: no file at the path, a
      read or parse error, or the parsed JSON. */
  datatype ArticlesFile = NoFile | Unreadable | Parsed(json: Json)

  /** Lines 8-14: each key is first defaulted with `||`, then the spread of
      `options` puts back every key the caller supplied. */
  function ResolveOptions(input: OptionsInput): (r: Options)
    ensures r.baseUrl == (if input.baseUrl.Some? then input.baseUrl.value else DefaultBaseUrl)
    ensures r.routes == (if input.routes.Some? then input.routes.value else [])
    ensures r.articlesDataPath == (if input.articlesDataPath.Some? then input.articlesDataPath.value else None)
    ensures r.priority == (if input.priority.Some? then input.priority.value else DefaultPriority)
    ensures r.changefreq == (if input.changefreq.Some? then input.changefreq.value else DefaultChangefreq)
  {
    var defaulted := Options(
      OrElse(input.baseUrl, DefaultBaseUrl),
      if input.routes.Some? then input.routes.value else [],
      if input.articlesDataPath.Some? then OrAbsent(input.articlesDataPath.value) else None,
      if input.priority.Some? && input.priority.value != 0 then input.priority.value else DefaultPriority,
      OrElse(input.changefreq, DefaultChangefreq));
    Options(
      if input.baseUrl.Some? then input.baseUrl.value else defaulted.baseUrl,
      if input.routes.Some? then input.routes.value else defaulted.routes,
      if input.articlesDataPath.Some? then input.articlesDataPath.value else defaulted.articlesDataPath,
      if input.priority.Some? then input.priority.value else defaulted.priority,
      if input.changefreq.Some? then input.changefreq.value else defaulted.changefreq)
  }

  const StaticRoutes: seq<Route> := [
    Route("/#/", "weekly", 10),
    Route("/#/about", "monthly", 8),
    Route("/#/articles", "weekly", 9),
    Route("/#/github", "weekly", 8)
  ]

  /** Lines 42-46: `route.changefreq || options.changefreq` and
      `route.priority || options.priority`. */
  function StaticLink(route: Route, options: Options): Link {
    Link(
      route.url,
      if route.changefreq != "" then route.changefreq else options.changefreq,
      if route.priority != 0 then route.priority else options.priority)
  }

  function StaticLinks(options: Options): seq<Link> {
    seq(|StaticRoutes|, i requires 0 <= i < |StaticRoutes| => StaticLink(StaticRoutes[i], options))
  }

  /** `article.replace('.md', '')`: only the first '.md' is removed. */
  function ArticleSlug(file: string): string {
    ReplaceFirst(file, ".md", "")
  }

  function ArticleLink(file: string): Link {
    Link("/#/articles/" + ArticleSlug(file), "monthly", ArticlePriority)
  }

  /** The number of leading strings of the array: `article.replace` throws
      on the first element that is not a string, and the surrounding `try`
      ends the loop there. */
  function LeadingStrings(elems: seq<Json>): (r: nat)
    ensures r <= |elems|
    ensures forall j :: 0 <= j < r ==> elems[j].JString?
    ensures r < |elems| ==> !elems[r].JString?
  {
    if elems == [] || !elems[0].JString? then 0 else 1 + LeadingStrings(elems[1..])
  }

  /** The article links pushed for the data file. */
  function ArticleLinks(articlesDataPath: Option<string>, file: ArticlesFile): seq<Link> {
    if Truthy(articlesDataPath) && file.Parsed? && file.json.JArray? then
      var elems := file.json.elems;
      seq(LeadingStrings(elems), i requires 0 <= i < LeadingStrings(elems) => ArticleLink(elems[i].value))
    else []
  }

  /** The `links` array of `generateSitemap` (lines 30-65). */
  function SitemapLinks(options: Options, file: ArticlesFile): seq<Link> {
    StaticLinks(options) + ArticleLinks(options.articlesDataPath, file)
  }

  /** The four static routes come first, with their own frequencies and
      priorities whatever the options; then one link per article file in
      array order (duplicates kept). Without a path, without a file, with an
      unreadable file or with JSON that is not an array, only the static
      routes remain. */
  lemma SitemapLinksSpec(options: Options, file: ArticlesFile)
    ensures var r := SitemapLinks(options, file);
      && |r| >= 4
      && r[..4] == [
           Link("/#/", "weekly", 10),
           Link("/#/about", "monthly", 8),
           Link("/#/articles", "weekly", 9),
           Link("/#/github", "weekly", 8)]
      && (!(Truthy(options.articlesDataPath) && file.Parsed? && file.json.JArray?) ==> |r| == 4)
  {
    var r := SitemapLinks(options, file);
    assert StaticLinks(options) == r[..4];
  }

  /** An array of strings gives one 'monthly' article link per element,
      after the static routes and in array order. */
  lemma ArticleLinksSpec(options: Options, file: ArticlesFile)
    requires Truthy(options.articlesDataPath) && file.Parsed? && file.json.JArray?
    requires forall j :: 0 <= j < |file.json.elems| ==> file.json.elems[j].JString?
    ensures var r := SitemapLinks(options, file); var elems := file.json.elems;
      && |r| == 4 + |elems|
      && forall j :: 0 <= j < |elems| ==>
           && r[4 + j].url == "/#/articles/" + ArticleSlug(elems[j].value)
           && r[4 + j].changefreq == "monthly"
           && r[4 + j].priority == ArticlePriority
  {
    var elems := file.json.elems;
    assert LeadingStrings(elems) == |elems|;
  }

  /** `options.routes`, `baseUrl`, `priority` and `changefreq` never change
      the links: only the data path and the file do. */
  lemma LinksDependOnlyOnDataPath(o1: Options, o2: Options, file: ArticlesFile)
    requires o1.articlesDataPath == o2.articlesDataPath
    ensures SitemapLinks(o1, file) == SitemapLinks(o2, file)
  {
    assert StaticLinks(o1) == StaticLinks(o2);
  }

  /** The slug removes only the first '.md'. */
  lemma ArticleSlugFirstOnly()
    ensures ArticleSlug("a.md.md") == "a.md"
    ensures ArticleSlug("notes") == "notes"
  {
    assert OccursAt("a.md.md", ".md", 1);
    assert !OccursAt("a.md.md", ".md", 0) by { assert "a.md.md"[0..3][0] == 'a'; }
    var s := "notes";
    forall j | 0 <= j <= |s| ensures !OccursAt(s, ".md", j) {
      if j + 3 <= |s| { assert s[j..j + 3][0] != '.'; }
    }
  }

  class SitemapPlugin {
    var options: Options

    /** Lines 7-14. */
    constructor (input: OptionsInput)
      ensures options == ResolveOptions(input)
    {
      options := ResolveOptions(input);
    }

    /** Lines 30-65: `links` grown with `push` in two `forEach` loops. */
    method GenerateLinks(file: ArticlesFile) returns (links: seq<Link>)
      ensures links == SitemapLinks(options, file)
    {
      links := [];
      var k := 0;
      while k < |StaticRoutes|
        invariant 0 <= k <= |StaticRoutes|
        invariant links == StaticLinks(options)[..k]
      {
        links := links + [StaticLink(StaticRoutes[k], options)];
        k := k + 1;
      }
      if Truthy(options.articlesDataPath) && file.Parsed? && file.json.JArray? {
        var elems := file.json.elems;
        var i := 0;
        while i < |elems| && elems[i].JString?
          invariant 0 <= i <= LeadingStrings(elems)
          invariant links == StaticLinks(options) + seq(i, j requires 0 <= j < i => ArticleLink(elems[j].value))
        {
          links := links + [ArticleLink(elems[i].value)];
          i := i + 1;
        }
      }
    }
  }
}
