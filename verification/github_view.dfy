/** The GitHub page's display rules (src/components/GitHub.tsx,
    src/components/GitHubLinksList.tsx, src/components/GitHubFeaturedTile.tsx):
    how snapshot entries become list items, which sections render, and what
    each tile shows. */
module GitHubView {
  import opened Wrappers
  import opened JsText
  import opened Seqs
  import opened GitHubData

  const DescriptionLimit: nat := 100
  const ShownLanguageLimit: nat := 3

  datatype ListType = RepoList | GistList

  /** A `GitHubLinksItem`; a property the item object does not set is None. */
  datatype LinkItem = LinkItem(
    name: string,
    description: Option<string>,
    url: string,
    language: Option<string>,
    allLanguages: Option<seq<string>>,
    stars: Option<nat>,
    files: Option<seq<string>>,
    updatedAt: Option<Timestamp>)

  /** GitHub.tsx lines 30-37: one item per other repository, in order.
      The item object sets no `updated_at`. */
  function RepoItems(repos: seq<RepoSummary>): (r: seq<LinkItem>)
    ensures |r| == |repos|
    ensures forall i :: 0 <= i < |r| ==>
      && r[i].name == repos[i].name
      && r[i].url == repos[i].htmlUrl
      && r[i].stars == Some(repos[i].stargazersCount)
      && r[i].allLanguages == Some(repos[i].allLanguages)
      && r[i].language == repos[i].language
      && r[i].description == Some(if Truthy(repos[i].description) then repos[i].description.value else "No description available")
      && r[i].updatedAt.None? && r[i].files.None?
  {
    seq(|repos|, i requires 0 <= i < |repos| =>
      var repo := repos[i];
      LinkItem(repo.name, Some(OrElse(repo.description, "No description available")), repo.htmlUrl,
               repo.language, Some(repo.allLanguages), Some(repo.stargazersCount), None, None))
  }

  /** `gist.files[0] || gist.id`: the first file name, or the id when
      there is no file or the first name is empty. */
  function GistName(g: GistSummary): (r: string)
    ensures |g.files| > 0 && g.files[0] != "" ==> r == g.files[0]
    ensures |g.files| == 0 || g.files[0] == "" ==> r == g.id
  {
    if |g.files| > 0 then OrElse(Some(g.files[0]), g.id) else g.id
  }

  /** GitHub.tsx lines 48-53: one item per gist, in order, with the file
      list passed through. */
  function GistItems(gists: seq<GistSummary>): (r: seq<LinkItem>)
    ensures |r| == |gists|
    ensures forall i :: 0 <= i < |r| ==>
      && r[i].name == GistName(gists[i])
      && r[i].url == gists[i].htmlUrl
      && r[i].files == Some(gists[i].files)
      && r[i].description == Some(OrElse(Some(gists[i].description), "No description available"))
      && r[i].allLanguages.None? && r[i].language.None? && r[i].updatedAt.None?
  {
    seq(|gists|, i requires 0 <= i < |gists| =>
      var g := gists[i];
      LinkItem(GistName(g), Some(OrElse(Some(g.description), "No description available")), g.htmlUrl,
               None, None, None, Some(g.files), None))
  }

  /** The snapshot already defaults an empty gist description to
      'No description', so the list's own default 'No description
      available' never applies to a gist that went through the generator. */
  lemma GistDescriptionDefaultedOnce(g: Gist)
    ensures GistItems([SummarizeGist(g)])[0].description
         == Some(if Truthy(g.description) then g.description.value else "No description")
  {
    var s := SummarizeGist(g);
    assert s.description != "";
    assert GistItems([s])[0].description == Some(OrElse(Some(s.description), "No description available"));
  }

  /** GitHub.tsx lines 26 and 44: each list section renders only for a
      non-empty list. */
  function Section(items: seq<LinkItem>): (r: Option<seq<LinkItem>>)
    ensures r.Some? <==> |items| > 0
    ensures r.Some? ==> r.value == items
  {
    if |items| > 0 then Some(items) else None
  }

  /** GitHubLinksList.tsx lines 44-47: a description over 100 characters
      is cut to its first 100 followed by '...'. */
  function TruncateDescription(d: string): (r: string)
    ensures |d| <= DescriptionLimit ==> r == d
    ensures |d| > DescriptionLimit ==>
      |r| == DescriptionLimit + 3 && r[..DescriptionLimit] == d[..DescriptionLimit] && r[DescriptionLimit..] == "..."
  {
    if |d| > DescriptionLimit then d[..DescriptionLimit] + "..." else d
  }

  /** The shown text is never longer than 103 characters and always
      begins like the description. */
  lemma TruncationBounded(d: string)
    ensures |TruncateDescription(d)| <= DescriptionLimit + 3
    ensures StartsWith(TruncateDescription(d), d[..Min(|d|, DescriptionLimit)])
  {
    var r := TruncateDescription(d);
    if |d| > DescriptionLimit {
      assert r[..DescriptionLimit] == d[..DescriptionLimit];
    }
  }

  /** GitHubLinksList.tsx line 42: a falsy description renders no
      synopsis. */
  function ListSynopsis(description: Option<string>): (r: Option<string>)
    ensures r.Some? <==> Truthy(description)
    ensures r.Some? ==> r.value == TruncateDescription(description.value)
  {
    if Truthy(description) then Some(TruncateDescription(description.value)) else None
  }

  /** GitHubLinksList.tsx line 52 and GitHubFeaturedTile.tsx line 43:
      `(all_languages || (language ? [language] : [])).slice(0, 3)`. A
      present `all_languages` is used even when empty, since an array is
      always truthy. */
  function ShownLanguages(allLanguages: Option<seq<string>>, language: Option<string>): (r: seq<string>)
    ensures |r| <= ShownLanguageLimit
    ensures allLanguages.Some? ==>
      |r| == Min(ShownLanguageLimit, |allLanguages.value|) && r == allLanguages.value[..|r|]
    ensures allLanguages.None? && Truthy(language) ==> r == [language.value]
    ensures allLanguages.None? && !Truthy(language) ==> r == []
  {
    var chosen := if allLanguages.Some? then allLanguages.value
                  else if Truthy(language) then [language.value] else [];
    Take(chosen, ShownLanguageLimit)
  }

  /** An empty `all_languages` suppresses the primary-language fallback. */
  lemma EmptyLanguageListShowsNothing(language: Option<string>)
    ensures ShownLanguages(Some([]), language) == []
  {
  }

  /** For a snapshot repository the shown languages are the first three of
      its language list, which the generator ranks by size. */
  lemma RepoItemLanguages(repos: seq<RepoSummary>, i: nat)
    requires i < |repos|
    ensures var item := RepoItems(repos)[i];
      ShownLanguages(item.allLanguages, item.language) == Take(repos[i].allLanguages, ShownLanguageLimit)
  {
    var item := RepoItems(repos)[i];
    var r := ShownLanguages(item.allLanguages, item.language);
    assert r == repos[i].allLanguages[..|r|];
  }

  /** GitHubLinksList.tsx line 63: 'N file', with an 's' unless N is 1. */
  function FileCountText(n: nat): (r: string)
    ensures StartsWith(r, NatToString(n) + " file")
    ensures |r| == |NatToString(n)| + 5 + (if n != 1 then 1 else 0)
    ensures r[|r| - 1] == 's' <==> n != 1
  {
    NatToString(n) + " file" + (if n != 1 then "s" else "")
  }

  /** The two optional meta spans of an item (lines 59-64): the update
      date only in a repository list with a date, the file count only in a
      gist list with a file list (an empty file list counts, as arrays are
      truthy). */
  function ItemMeta(listType: ListType, item: LinkItem): (r: (Option<Timestamp>, Option<string>))
    ensures r.0.Some? <==> listType == RepoList && item.updatedAt.Some?
    ensures r.0.Some? ==> r.0.value == item.updatedAt.value
    ensures r.1.Some? <==> listType == GistList && item.files.Some?
    ensures r.1.Some? ==> r.1.value == FileCountText(|item.files.value|)
    ensures r.0.None? || r.1.None?
  {
    (if listType == RepoList then item.updatedAt else None,
     if listType == GistList && item.files.Some? then Some(FileCountText(|item.files.value|)) else None)
  }

  /** Repository items never show an update date. */
  lemma RepoItemsShowNoDate(repos: seq<RepoSummary>, i: nat)
    requires i < |repos|
    ensures ItemMeta(RepoList, RepoItems(repos)[i]).0.None?
  {
  }

  function ListTypeName(t: ListType): string {
    match t
    case RepoList => "repo"
    case GistList => "gist"
  }

  /** GitHubLinksList.tsx line 33: the key `${type}-${index}`. */
  function ItemKey(t: ListType, index: nat): (r: string)
    ensures StartsWith(r, ListTypeName(t) + "-")
    ensures r[|ListTypeName(t)| + 1..] == NatToString(index)
  {
    ListTypeName(t) + "-" + NatToString(index)
  }

  /** Keys within one list are distinct, and no repository key equals a
      gist key. */
  lemma {:induction false} ItemKeysDistinct(t: ListType, u: ListType, i: nat, j: nat)
    requires ItemKey(t, i) == ItemKey(u, j)
    ensures t == u && i == j
  {
    var a, b := ItemKey(t, i), ItemKey(u, j);
    assert a[0] == ListTypeName(t)[0] && b[0] == ListTypeName(u)[0];
    assert t == u;
    assert a[5..] == NatToString(i);
    assert b[5..] == NatToString(j);
    NatToStringInjective(i, j);
  }

  /** GitHubFeaturedTile.tsx lines 38-40: the description paragraph,
      untruncated, only for a truthy description. */
  function FeaturedSynopsis(description: Option<string>): (r: Option<string>)
    ensures r.Some? <==> Truthy(description)
    ensures r.Some? ==> r.value == description.value
  {
    if Truthy(description) then description else None
  }

  /** A featured tile shows the first three of the pinned repository's
      ranked languages; the primary language is never used because the
      snapshot always carries a language list. */
  function FeaturedLanguages(repo: RepoSummary): (r: seq<string>)
    ensures |r| == Min(ShownLanguageLimit, |repo.allLanguages|)
    ensures r == repo.allLanguages[..|r|]
  {
    ShownLanguages(Some(repo.allLanguages), repo.language)
  }
}
