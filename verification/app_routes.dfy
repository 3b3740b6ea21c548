/** The route-to-metadata selection of the application shell
    (src/components/App.tsx): the SEO properties chosen for the current
    hash-router pathname, and the overflow class of the page wrapper. */
module AppRoutes {
  import opened Wrappers
  import opened JsText

  const BaseUrl := "https://www.anionline.me/#"
  const ArticlePrefix := "/articles/"

  datatype PageType = Website | Profile | Article

  datatype SeoProps = SeoProps(title: string, description: string, url: string, pageType: PageType)

  const HomeDescription := "A Technical Leader with 30 years of professional experience and a highly specialized skill set for research/production AI/ML, simulation, real-time rendering, HPC/GPGPU, & game/video streaming, among other things"

  /** The properties of '/' (lines 42-47), also used for every unknown
      path (lines 80-85). */
  const HomeProps := SeoProps("Ani Balasubramaniam's website", HomeDescription, BaseUrl + "/", Website)

  const AboutProps := SeoProps(
    "About Ani - Software Developer Profile",
    "Learn more about Ani, a passionate software developer with expertise in various programming languages and technologies. View resume and professional background.",
    BaseUrl + "/about", Profile)

  const ArticlesProps := SeoProps(
    "Articles - Tech Insights by Ani",
    "Read technical articles and insights on programming, software development, and technology trends written by Ani.",
    BaseUrl + "/articles", Website)

  const GitHubProps := SeoProps(
    "GitHub Projects - Open Source Contributions by Ani",
    "Explore Ani's open source projects, contributions, and GitHub activity. Discover innovative solutions and code repositories.",
    BaseUrl + "/github", Website)

  predicate IsFixedRoute(pathname: string) {
    pathname == "/" || pathname == "/about" || pathname == "/articles" || pathname == "/github"
  }

  /** `pathname.split('/articles/')[1]` for a pathname that starts with
      '/articles/': the text after that prefix up to the next '/articles/',
      or to the end when there is none. */
  function ArticleSlugOf(pathname: string): (r: string)
    requires StartsWith(pathname, ArticlePrefix)
    ensures |ArticlePrefix| + |r| <= |pathname|
    ensures r == pathname[|ArticlePrefix|..|ArticlePrefix| + |r|]
    ensures forall j :: |ArticlePrefix| <= j < |ArticlePrefix| + |r| ==> !OccursAt(pathname, ArticlePrefix, j)
    ensures |ArticlePrefix| + |r| == |pathname| || OccursAt(pathname, ArticlePrefix, |ArticlePrefix| + |r|)
  {
    match IndexOfFrom(pathname, ArticlePrefix, |ArticlePrefix|)
    case None => pathname[|ArticlePrefix|..]
    case Some(k) => pathname[|ArticlePrefix|..k]
  }

  /** A url built on the hash base lies under it. */
  lemma UnderBase(path: string)
    ensures StartsWith(BaseUrl + path, BaseUrl)
  {
    assert (BaseUrl + path)[..|BaseUrl|] == BaseUrl;
  }

  /** No fixed route is an article path. */
  lemma FixedRoutesAreNotArticles(pathname: string)
    ensures IsFixedRoute(pathname) ==> !StartsWith(pathname, ArticlePrefix)
  {
  }

  /** `getSEOProps` (lines 38-87). The four fixed routes have their own
      properties; any other path under '/articles/' is an article page
      whose title is built from its slug; every other path gets the
      properties of '/'. Every url lies under the site's hash base. */
  function SeoPropsFor(pathname: string): (r: SeoProps)
    ensures StartsWith(r.url, BaseUrl)
    ensures IsFixedRoute(pathname) ==> r.url == BaseUrl + pathname
    ensures r.pageType == Profile <==> pathname == "/about"
    ensures r.pageType == Article <==> StartsWith(pathname, ArticlePrefix)
    ensures r.pageType == Article ==>
      r.url == BaseUrl + pathname && r.title == ArticleSlugOf(pathname) + " - Article by Ani"
    ensures !IsFixedRoute(pathname) && !StartsWith(pathname, ArticlePrefix) ==> r == HomeProps
  {
    UnderBase(pathname);
    UnderBase("/");
    FixedRoutesAreNotArticles(pathname);
    if pathname == "/" then HomeProps
    else if pathname == "/about" then AboutProps
    else if pathname == "/articles" then ArticlesProps
    else if pathname == "/github" then GitHubProps
    else if StartsWith(pathname, ArticlePrefix) then
      var slug := ArticleSlugOf(pathname);
      SeoProps(
        slug + " - Article by Ani",
        "Read the article \"" + slug + "\" by Ani, covering insights on software development and technology.",
        BaseUrl + pathname,
        Article)
    else HomeProps
  }

  /** Line 96: the class of the page wrapper. */
  function OverflowClass(pathname: string): (r: string)
    ensures r == "overflow-visible" || r == "overflow-hidden"
    ensures r == "overflow-visible" <==> StartsWith(pathname, ArticlePrefix)
  {
    if StartsWith(pathname, ArticlePrefix) then "overflow-visible" else "overflow-hidden"
  }

  /** The wrapper lets content overflow exactly on the pages whose
      metadata describes an article. */
  lemma OverflowVisibleOnArticlePages(pathname: string)
    ensures OverflowClass(pathname) == "overflow-visible" <==> SeoPropsFor(pathname).pageType == Article
  {
  }

  /** Only the first piece after '/articles/' names the article, and a
      path ending in '/articles/' gives an empty slug. */
  lemma ArticleSlugExamples()
    ensures ArticleSlugOf("/articles/intro") == "intro"
    ensures ArticleSlugOf("/articles/") == ""
  {
    assert StartsWith("/articles/intro", ArticlePrefix) by {
      assert "/articles/intro"[..10] == ArticlePrefix;
    }
    assert StartsWith("/articles/", ArticlePrefix);
  }
}
