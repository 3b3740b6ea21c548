/** The navigation header (src/components/Header.tsx): which tab is marked
    active for a pathname, and which tabs are rendered. */
module NavHeader {
  import opened JsText

  const Tabs: seq<string> := ["/", "/articles", "/github", "/about"]

  /** `isActive` (lines 10-15): the home tab needs an exact match, every
      other tab a plain prefix match. */
  predicate IsActive(pathname: string, path: string) {
    if path == "/" then pathname == "/" else StartsWith(pathname, path)
  }

  /** An active tab other than home fixes the pathname's third character. */
  lemma ActiveTabThirdChar(pathname: string, t: string)
    requires t in Tabs && t != "/" && IsActive(pathname, t)
    ensures |pathname| > 2 && pathname[2] == t[2]
  {
    assert pathname[..|t|] == t;
  }

  /** For any pathname at most one of the four tabs is active. */
  lemma {:induction false} AtMostOneActiveTab(pathname: string, a: string, b: string)
    requires a in Tabs && b in Tabs
    requires IsActive(pathname, a) && IsActive(pathname, b)
    ensures a == b
  {
    if a != "/" && b != "/" {
      ActiveTabThirdChar(pathname, a);
      ActiveTabThirdChar(pathname, b);
    }
  }

  /** The prefix test also activates a tab for a longer word: '/articlesX'
      activates '/articles', while '/x' never activates the home tab. */
  lemma PrefixActivation()
    ensures IsActive("/articlesX", "/articles")
    ensures !IsActive("/x", "/")
    ensures IsActive("/github/a", "/github")
  {
    assert "/articlesX"[..9] == "/articles";
    assert "/github/a"[..7] == "/github";
  }

  /** The tabs rendered, in order (lines 21-46): the Articles tab only
      when the article list is non-empty (line 27). */
  function VisibleTabs(articleCount: nat): (r: seq<string>)
    ensures "/articles" in r <==> articleCount > 0
    ensures |r| >= 3 && r[0] == "/" && r[|r| - 2] == "/github" && r[|r| - 1] == "/about"
    ensures forall t :: t in r ==> t in Tabs
  {
    ["/"] + (if articleCount > 0 then ["/articles"] else []) + ["/github", "/about"]
  }
}
