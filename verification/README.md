# aniongithub.github.io in Dafny

This project models the data shaping behind the aniongithub portfolio site.

The main piece is the **GitHub snapshot builder** in `scripts/generate-github-data.js`:
- It takes the GraphQL response, the user profile, the REST repository list, the per-repository `/languages` results and the gist list.
- It builds the snapshot the GitHub page renders:
  - pinned repositories with their top three languages;
  - up to twenty "other" repositories, newest first, the first fifteen enriched with their own language lists;
  - up to ten public gists;
  - the twelve largest languages by total bytes;
  - star, fork and contribution totals.
- A missing token, or a failed GraphQL, user or repository request, aborts the build.
- A failed gist or language request only degrades the output.

Around it the project models the smaller pieces of logic in the site:
- the article-list filter (`scripts/generate-articles.js`);
- the sitemap plugin's option defaults and link list (`webpack/sitemap-plugin.js`);
- the article catalog: records, defaults, slug, newest-first sort;
- the route-to-metadata switch and the overflow class of the app shell;
- the active-tab test of the header;
- the article pivot's index/direction state and item classes;
- the résumé pager;
- the display rules of the GitHub page: list items, truncation, language fallback, pluralisation, keys;
- the schema.org JSON-LD record of the SEO component, with its three types WebSite, Person and Article;
- the `code`/`a` renderer overrides and load errors of the article page.

## Modelling conventions

JavaScript semantics are written out where they matter:
- **Truthiness.** `null`, `undefined` and `''` are falsy (`JsText.Truthy`). An array, even an empty one, is truthy. A default parameter applies only to `undefined`.
- **`replace` with a string pattern.** Only the first occurrence is replaced (`JsText.ReplaceFirst`).
- **`sort`.** `Array.prototype.sort` with a comparator `key(b) - key(a)` is a stable sort by descending key (`Seqs.SortDesc`). `sort(...).slice(0, n)` is a top-n ranking (`Seqs.TopK`, `Seqs.IsTopRanking`) whose ties are the earliest elements of the input, in input order (`Seqs.KeepsTieOrder`).
- **Object key order.** A JavaScript object filled key by key enumerates its keys in first-insertion order (`GitHubData.FirstSeen`, `GitHubData.FirstSeenOrder`).

Data conventions:
- **Dates** are integer timestamps. `null` is `None`, and `new Date(null)` is 0.
- **Byte sizes and counts** are `nat`.
- **Sitemap priorities** are integer tenths (0.8 is 8).
- **I/O results are inputs:**
  - an HTTP request outcome is a `Response` (ok body, not-ok status, or thrown);
  - a file read is an `ArticlesFile`;
  - the per-repository and per-article fetches are functions from the name to the outcome.
- **Clocks** (`currentYear`, `now`) are parameters.

Where the source mutates state, the model is imperative:
- the `languageSizes` dictionary loop is `GitHubData.AccumulateLanguageSizes`;
- the sitemap `links` pushes are `Sitemap.SitemapPlugin.GenerateLinks`;
- the article `for` loop is `ArticleCatalog.ArticleCatalogState.CollectRecords`.

React state is a class whose methods are the handlers. Each method is proved against a specification function.

## Model

| member | source | states |
|---|---|---|
| JsText.ReplaceFirst | webpack/sitemap-plugin.js:58 | A string without the pattern comes back unchanged; otherwise only the leftmost occurrence is replaced and the rest of the string is kept |
| JsText.IndexOfFrom | src/components/App.tsx:72 | The result is the first position at or after the start where the pattern occurs; None means it occurs nowhere from there |
| JsText.NatToString | src/components/GitHubLinksList.tsx:63 | The rendering is a non-empty string of decimal digits without a leading zero, one digit exactly for numbers below ten |
| JsText.NatToStringValue | src/components/GitHubLinksList.tsx:63 | Read back as a decimal numeral, the rendering is the number itself |
| JsText.NatToStringInjective | src/components/GitHubLinksList.tsx:33 | Distinct numbers have distinct decimal renderings |
| Seqs.Take | scripts/generate-github-data.js:149 | `slice(0, n)` keeps the first min(n, length) elements unchanged |
| Seqs.Drop | scripts/generate-github-data.js:206 | `slice(n)` keeps the elements after the first n, in order |
| Seqs.Filter | scripts/generate-github-data.js:147 | The result holds exactly the elements satisfying the predicate, each as many times as in the input, as a subsequence of the input, never longer than it |
| Seqs.FilterIdempotent | scripts/generate-articles.js:19-23 | Filtering a filtered list with the same predicate changes nothing |
| Seqs.FilterSnoc | scripts/generate-github-data.js:276 | Filtering a list with one more element adds that element at the end exactly when it satisfies the predicate |
| Seqs.SumOf | scripts/generate-github-data.js:277-278 | The `reduce` sum of the amounts, starting at 0; what each element adds is stated by SumOfSnoc and SumOfCovers |
| Seqs.SumOfSnoc | scripts/generate-github-data.js:277-278 | A `reduce` sum over a list with one more element grows by exactly that element's amount |
| Seqs.SumOfCovers | scripts/generate-github-data.js:277-278 | A `reduce` sum is at least the amount of every element it covers |
| Seqs.SortDesc | scripts/generate-github-data.js:117 | The sort is a permutation of its input, ordered by descending key |
| Seqs.SortDescStable | scripts/generate-github-data.js:148 | Elements with equal keys keep their input order (stable sort) |
| Seqs.TopK | scripts/generate-github-data.js:116-118 | `sort` then `slice(0, n)` keeps min(n, length) elements of the input, largest key first, and nothing left out has a larger key than anything kept; among equal keys the earliest elements of the input are kept, in input order |
| Seqs.TakeKeepsTieOrder | scripts/generate-github-data.js:118 | `slice(0, n)` keeps, for every key, a leading run of the elements with that key |
| GitHubData.RankLanguages | scripts/generate-github-data.js:116-119 | The names of the n largest language edges, largest first, min(n, count) of them, ties in input order |
| GitHubData.ShapePinned | scripts/generate-github-data.js:111-126 | Name, url, description, stars, forks and archived flag are the node's; the language is the primary language's name, or null without one; at most 3 languages, the top 3 by size with ties in edge order, and none without `languages`; topics are the node's or empty; `updated_at` is `pushedAt` when present, else `updatedAt`; a truthy homepage is kept and a falsy one becomes absent |
| GitHubData.ShapeAllPinned | scripts/generate-github-data.js:111-126 | One summary per pinned node, in order, each shaped by ShapePinned |
| GitHubData.SelectOtherRepos | scripts/generate-github-data.js:145-149 | At most 20 repositories, none a fork or pinned, newest first by `pushed_at \|\| updated_at`; no eligible repository left out is newer than one kept; exactly min(20, eligible) are kept; among equal dates the earliest eligible repositories are kept, in REST order |
| GitHubData.FallbackLanguages | scripts/generate-github-data.js:170 | The fallback list is the primary language alone when it is truthy, else empty |
| GitHubData.Summarize | scripts/generate-github-data.js:173-185 | The record of one other repository, every field from the REST repository and the given language list; OtherRepos and Enrich state what it holds |
| GitHubData.Enrich | scripts/generate-github-data.js:153-201 | An ok `/languages` response yields its top 3 languages by bytes; a non-ok response or a thrown error yields the fallback list; every other field comes from the REST repository |
| GitHubData.OtherRepos | scripts/generate-github-data.js:152-221 | Same length and names as the selection, in order; the first 15 are enriched, the rest take the fallback list |
| GitHubData.ProcessGists | scripts/generate-github-data.js:237-247 | The first min(10, public) public gists in API order, each with its id and file names, and 'No description' for a falsy description |
| GitHubData.SummarizeGist | scripts/generate-github-data.js:239-246 | The record of one gist, with 'No description' for a falsy description; ProcessGists states what it holds |
| GitHubData.GistsFrom | scripts/generate-github-data.js:224-247 | At most 10 gists; a non-ok or throwing gist request gives an empty list |
| GitHubData.FirstSeen | scripts/generate-github-data.js:260-264 | The dictionary's key order holds every visited language exactly once |
| GitHubData.FirstSeenOrder | scripts/generate-github-data.js:260-270 | The keys come in the order of their first occurrences, so with FirstSeen the key order is exactly first-insertion order |
| GitHubData.OrderKeptOnRepeat | scripts/generate-github-data.js:260-261 | Adding to a language already in the dictionary keeps the key order in first-occurrence order |
| GitHubData.OrderExtendedOnNewKey | scripts/generate-github-data.js:262-263 | A language set for the first time becomes the last key, after every earlier-seen one |
| GitHubData.VisitedEdges | scripts/generate-github-data.js:253-257 | The language edges of the non-fork repositories in the order the nested `forEach` visits them; ForksAddNoBytes says a fork adds none |
| GitHubData.TotalFor | scripts/generate-github-data.js:260-264 | The bytes of one language summed over the visited edges; TotalForAbsent and TotalsStep state what each edge adds |
| GitHubData.LanguageTotals | scripts/generate-github-data.js:250-270 | `Object.entries(languageSizes)` pairs every visited language, in first-seen order, with its bytes summed over all non-fork edges |
| GitHubData.RankedTotalsOrder | scripts/generate-github-data.js:270-273 | Ranking the entries by size orders the kept names by total bytes |
| GitHubData.RankedTotalsDominate | scripts/generate-github-data.js:270-273 | A language left out of the ranking has no more bytes than any kept one |
| GitHubData.TopLanguages | scripts/generate-github-data.js:250-273 | Exactly min(12, number of distinct visited languages) names, none repeated, all visited, ordered by total bytes descending, and none left out has more bytes than one kept |
| GitHubData.RankedLanguages | scripts/generate-github-data.js:269-273 | Ranking the totals yields that count of distinct visited names, ordered by total bytes and dominating every language left out |
| GitHubData.TotalForAbsent | scripts/generate-github-data.js:262-263 | A language no edge names has a total of zero |
| GitHubData.TallyIncrease | scripts/generate-github-data.js:260-261 | Adding an edge's size to a present total keeps the dictionary equal to the running totals |
| GitHubData.TallySet | scripts/generate-github-data.js:262-263 | Setting an absent language to the edge's size keeps the dictionary equal to the running totals and appends the key |
| GitHubData.TallyReset | scripts/generate-github-data.js:260-263 | A language present with a zero (falsy) total is set, not increased, and the key order is unchanged |
| GitHubData.AddEdge | scripts/generate-github-data.js:258-264 | One edge keeps the dictionary equal to the totals of the edges seen, with keys in first-seen order |
| GitHubData.AddEdges | scripts/generate-github-data.js:257-265 | The inner loop over a repository's edges preserves that invariant |
| GitHubData.AccumulateLanguageSizes | scripts/generate-github-data.js:250-267 | After the loops the keys are exactly the visited languages in first-seen order, and each value is that language's byte total over non-fork repositories |
| GitHubData.NonForks | scripts/generate-github-data.js:276 | `reposData.filter(repo => !repo.fork)`: exactly the non-fork repositories, in order (Seqs.Filter) |
| GitHubData.OwnTotalSnoc | scripts/generate-github-data.js:276-278 | Over a list with one more repository, the star or fork total grows by nothing for a fork and by exactly the repository's own count otherwise |
| GitHubData.TotalContributions | scripts/generate-github-data.js:283-287 | The sum of the four contribution counts; SnapshotLists states it is the snapshot's value |
| GitHubData.ForksAddNoBytes | scripts/generate-github-data.js:253-256 | A fork adds no language edges |
| GitHubData.Generate | scripts/generate-github-data.js:9-142 | A snapshot is produced iff the token is truthy, the GraphQL response is ok without `errors`, and the user and repository requests are ok; a missing token, a non-ok GraphQL response and GraphQL errors each give their own failure |
| GitHubData.SelectedReposSummarized | scripts/generate-github-data.js:145-221 | The summaries of the selected repositories are at most 20, newest first, none pinned, each named after a non-fork REST repository |
| GitHubData.SnapshotOtherRepos | scripts/generate-github-data.js:145-221 | The snapshot's other repositories are at most 20, newest first, none pinned, each from a non-fork REST repository |
| GitHubData.OptionalRequestsDegrade | scripts/generate-github-data.js:152-234 | Changing the language or gist outcomes never turns success into failure, and a failed gist request leaves `gists` empty |
| GitHubData.TotalsCoverEveryOwnRepo | scripts/generate-github-data.js:276-278 | Total stars and forks count every non-fork repository of the full REST list, not only the twenty kept |
| GitHubData.SnapshotTotals | scripts/generate-github-data.js:276-278 | `totalStars` and `totalForks` are the sums over exactly the non-fork repositories of the REST list |
| GitHubData.SnapshotParts | scripts/generate-github-data.js:111-309 | The snapshot's languages, contributions, pinned, other repositories and gists are the ones the builder computes |
| GitHubData.SnapshotLanguages | scripts/generate-github-data.js:250-309 | `stats.languages` is exactly min(12, distinct visited languages) distinct names of non-fork GraphQL repositories, ordered by total bytes, dominating every language left out |
| GitHubData.PinnedLanguagesBounded | scripts/generate-github-data.js:111-126 | Every pinned repository carries at most 3 languages |
| GitHubData.GistsArePublic | scripts/generate-github-data.js:224-247 | Every gist kept is a public gist of an ok response |
| GitHubData.SnapshotLists | scripts/generate-github-data.js:224-287 | Contributions are the sum of the four counts; every pinned repository is kept with at most 3 languages; at most 10 gists, each a public one |
| ArticleFiles.MarkdownFiles | scripts/generate-articles.js:19-23 | Exactly the names ending in '.md' that are not 'index.md' and do not start with '.', in input order, never more than the input |
| ArticleFiles.MarkdownFilesIdempotent | scripts/generate-articles.js:19-23 | Filtering twice equals filtering once |
| ArticleFiles.MarkdownFilesExamples | scripts/generate-articles.js:20-22 | The match is case-sensitive ('README.MD' is dropped), and '.draft.md' and 'index.md' are dropped |
| Sitemap.SitemapPlugin.constructor | webpack/sitemap-plugin.js:6-15 | The plugin's options are the resolved options |
| Sitemap.ResolveOptions | webpack/sitemap-plugin.js:7-14 | A missing option takes its default (base url, 0.8, 'monthly', no routes, null path); a supplied option wins even when falsy |
| Sitemap.LeadingStrings | webpack/sitemap-plugin.js:56-58 | Counts the array elements before the first non-string, where `replace` throws and the loop ends |
| Sitemap.StaticLink | webpack/sitemap-plugin.js:41-45 | A static route's link: its own frequency and priority when truthy, else the options' |
| Sitemap.StaticLinks | webpack/sitemap-plugin.js:33-46 | The four static routes' links, in route order |
| Sitemap.ArticleSlug | webpack/sitemap-plugin.js:58 | The article name with its first '.md' removed (ArticleSlugFirstOnly) |
| Sitemap.ArticleLinks | webpack/sitemap-plugin.js:48-70 | The article links; ArticleLinksSpec and SitemapLinksSpec state them |
| Sitemap.SitemapLinks | webpack/sitemap-plugin.js:30-70 | The `links` list: static links, then article links; specified by SitemapLinksSpec and ArticleLinksSpec |
| Sitemap.SitemapLinksSpec | webpack/sitemap-plugin.js:30-70 | The links begin with the four static routes and their own frequencies and priorities, whatever the options; a falsy path, a missing or unreadable file, or a non-array leaves exactly those four |
| Sitemap.ArticleLinksSpec | webpack/sitemap-plugin.js:48-64 | An all-string array adds one 'monthly' 0.7 link per file after the static routes, in array order, duplicates kept |
| Sitemap.LinksDependOnlyOnDataPath | webpack/sitemap-plugin.js:9-46 | The routes, base url, priority and frequency options never change the links |
| Sitemap.ArticleSlugFirstOnly | webpack/sitemap-plugin.js:58 | The slug drops only the first '.md' ('a.md.md' gives 'a.md'), and a name without '.md' is kept |
| Sitemap.SitemapPlugin.GenerateLinks | webpack/sitemap-plugin.js:30-65 | The two `push` loops build exactly the specified link list |
| ArticleCatalog.MakeRecord | src/components/Articles.tsx:30-36 | The record pushed for a fetched file; RecordDefaults states its fields |
| ArticleCatalog.RecordDefaults | src/components/Articles.tsx:30-36 | A name without '.md' is its own slug, and a name whose only '.md' is the extension loses it; falsy title, synopsis and author default to 'Untitled', '' and 'Anonymous'; the date is kept |
| ArticleCatalog.Records | src/components/Articles.tsx:23-41 | Never more records than files |
| ArticleCatalog.AllFetchedAllRecorded | src/components/Articles.tsx:23-41 | When every fetch succeeds there is one record per file |
| ArticleCatalog.RecordsFromFetchedFiles | src/components/Articles.tsx:24-40 | Every record comes from a file whose fetch succeeded |
| ArticleCatalog.FetchedFileRecorded | src/components/Articles.tsx:24-40 | A successfully fetched file is recorded whatever happens to the other files |
| ArticleCatalog.SortByDate | src/components/Articles.tsx:44 | The sort is a permutation; when every record has a date it is newest first |
| ArticleCatalog.SortByDateStable | src/components/Articles.tsx:44 | Records with equal dates keep their file order |
| ArticleCatalog.ArticleCatalogState.constructor | src/components/Articles.tsx:15-16 | Starts with no articles and loading |
| ArticleCatalog.ArticleCatalogState.CollectRecords | src/components/Articles.tsx:21-41 | The loop's pushes build exactly the specified records |
| ArticleCatalog.ArticleCatalogState.Load | src/components/Articles.tsx:19-51 | The articles become the sorted records and loading ends |
| AppRoutes.ArticleSlugOf | src/components/App.tsx:72 | `split('/articles/')[1]` is the text after the prefix up to the next '/articles/' or the end |
| AppRoutes.SeoPropsFor | src/components/App.tsx:38-87 | Every url starts with the site's hash base; the fixed routes use base + path; only '/about' is a profile; exactly the paths under '/articles/' are articles, titled by their slug with url base + path; every other path gets the home properties |
| AppRoutes.OverflowClass | src/components/App.tsx:96 | 'overflow-visible' iff the path starts with '/articles/', else 'overflow-hidden' |
| AppRoutes.OverflowVisibleOnArticlePages | src/components/App.tsx:71-96 | Content may overflow exactly on the pages whose metadata is an article |
| AppRoutes.ArticleSlugExamples | src/components/App.tsx:72 | '/articles/intro' has slug 'intro' and '/articles/' an empty slug |
| NavHeader.IsActive | src/components/Header.tsx:10-15 | The home tab is active only on '/', any other tab on every pathname starting with it; AtMostOneActiveTab and PrefixActivation state the consequences |
| NavHeader.ActiveTabThirdChar | src/components/Header.tsx:14 | An active non-home tab fixes the pathname's third character |
| NavHeader.AtMostOneActiveTab | src/components/Header.tsx:10-46 | For any pathname at most one of the four tabs is active |
| NavHeader.PrefixActivation | src/components/Header.tsx:11-14 | The home tab needs an exact match; other tabs use a plain prefix test, so '/articlesX' activates '/articles' |
| NavHeader.VisibleTabs | src/components/Header.tsx:21-46 | The Articles tab is rendered iff there are articles; Home, GitHub and About always are |
| ArticlePivot.PivotItemClass | src/components/ArticlePivot.tsx:49-53 | 'active' iff the index is current, 'adjacent' iff one away, 'distant' iff further |
| ArticlePivot.PivotClassesAroundCurrent | src/components/ArticlePivot.tsx:49-53 | The only adjacent items are the two neighbours of the current one |
| ArticlePivot.EnterX | src/components/ArticlePivot.tsx:29-32 | The entering offset is 300 iff the direction is positive, else -300 |
| ArticlePivot.ExitX | src/components/ArticlePivot.tsx:37-40 | The exiting offset is 300 iff the direction is negative, else -300 |
| ArticlePivot.SlidesOpposite | src/components/ArticlePivot.tsx:28-41 | After a real move the leaving article exits opposite to where the new one enters |
| ArticlePivot.ViewOf | src/components/ArticlePivot.tsx:55-59 | An empty list shows the empty message and is never indexed; otherwise the current article is shown when the index is in range |
| ArticlePivot.Pivot.constructor | src/components/ArticlePivot.tsx:25-26 | Starts at index 0 with direction 0 |
| ArticlePivot.Pivot.NavigateTo | src/components/ArticlePivot.tsx:43-47 | Selecting the current index changes nothing; otherwise the index is taken and the direction is 1 for a forward move, -1 for a backward one |
| ResumePager.PrevPage | src/components/About.tsx:32 | Never below 1; steps back from pages above 1 and stays at page 1 |
| ResumePager.NextPage | src/components/About.tsx:42 | Never above the page count; steps forward below it and stays at the last page |
| ResumePager.PagingPreservesRange | src/components/About.tsx:32-42 | A page in 1..numPages stays in range under both buttons |
| ResumePager.PrevNextInverse | src/components/About.tsx:32-42 | Away from the ends, Previous undoes Next and Next undoes Previous |
| ResumePager.ControlsOf | src/components/About.tsx:29-43 | Controls show iff there is more than one page; each button is disabled exactly where it would not move |
| ResumePager.Pager.constructor | src/components/About.tsx:9-11 | Starts with 0 pages, page 1, loading |
| ResumePager.Pager.OnLoadSuccess | src/components/About.tsx:13-16 | Records the page count and ends loading; the page shown is kept |
| ResumePager.Pager.OnLoadError | src/components/About.tsx:18-21 | Only ends loading |
| ResumePager.Pager.Previous | src/components/About.tsx:32 | Moves one page back within range, nothing else changes |
| ResumePager.Pager.Next | src/components/About.tsx:42 | Moves one page forward within range, nothing else changes |
| GitHubView.RepoItems | src/components/GitHub.tsx:30-37 | One item per other repository, in order, with its url, stars and language list, 'No description available' for a falsy description, and no update date |
| GitHubView.GistName | src/components/GitHub.tsx:49 | The first file name when it is truthy, else the gist id |
| GitHubView.GistItems | src/components/GitHub.tsx:48-53 | One item per gist, in order, named by its first file or id, with its file list passed through |
| GitHubView.GistDescriptionDefaultedOnce | src/components/GitHub.tsx:50 | For a generated gist the list's own default never applies; the description is the gist's or 'No description' |
| GitHubView.Section | src/components/GitHub.tsx:26-44 | A list section renders iff its list is non-empty |
| GitHubView.TruncateDescription | src/components/GitHubLinksList.tsx:44-47 | Up to 100 characters are shown unchanged; a longer text shows its first 100 followed by '...' |
| GitHubView.TruncationBounded | src/components/GitHubLinksList.tsx:44-47 | The shown text is at most 103 characters and starts like the description |
| GitHubView.ListSynopsis | src/components/GitHubLinksList.tsx:42-48 | The synopsis renders iff the description is truthy |
| GitHubView.ShownLanguages | src/components/GitHubLinksList.tsx:52 | At most 3 languages: a prefix of `all_languages` when present (even empty), else the truthy primary language, else none |
| GitHubView.EmptyLanguageListShowsNothing | src/components/GitHubFeaturedTile.tsx:43 | A present empty language list suppresses the primary-language fallback |
| GitHubView.RepoItemLanguages | src/components/GitHubLinksList.tsx:52 | A repository item shows the first three of its ranked language list |
| GitHubView.FileCountText | src/components/GitHubLinksList.tsx:63 | Exactly the count's decimal rendering, ' file', then an 's' iff N is not 1 |
| GitHubView.ItemMeta | src/components/GitHubLinksList.tsx:59-64 | The date shows only in a repository list for an item with a date; the file count only in a gist list for an item with files; never both |
| GitHubView.RepoItemsShowNoDate | src/components/GitHub.tsx:30-37 | Repository items never show an update date |
| GitHubView.ItemKey | src/components/GitHubLinksList.tsx:33 | The key is the list type, a dash, then exactly the index's decimal rendering |
| GitHubView.ItemKeysDistinct | src/components/GitHubLinksList.tsx:33 | Keys are distinct within a list and between the two lists |
| GitHubView.FeaturedSynopsis | src/components/GitHubFeaturedTile.tsx:38-40 | The description renders, untruncated, iff it is truthy |
| GitHubView.FeaturedLanguages | src/components/GitHubFeaturedTile.tsx:43 | A featured tile shows the first min(3, n) of the pinned repository's language list |
| Seo.ResolveProps | src/components/SEO.tsx:14-23 | An omitted property takes its default (home title and description, site url, image, 'website', author 'Ani'); a supplied one is kept even when empty |
| Seo.KeyNameInjective | src/components/SEO.tsx:25-60 | Distinct keys have distinct JSON property names |
| Seo.GetAbsent | src/components/SEO.tsx:25-60 | A property the record does not hold is not found |
| Seo.GetMember | src/components/SEO.tsx:25-60 | In a record without repeated keys every member is found by its key |
| Seo.StructuredData | src/components/SEO.tsx:25-27 | '@context' is always 'https://schema.org'; '@type' is Article, Person or WebSite by page type |
| Seo.WebsiteKeys | src/components/SEO.tsx:25-37 | A website record holds exactly '@context', '@type', name, description, url and author, none twice |
| Seo.WebsiteRecord | src/components/SEO.tsx:28-37 | A website record's name is the title, and its author a Person with the site url |
| Seo.ProfileKeys | src/components/SEO.tsx:25-47 | A profile record holds exactly '@context', '@type', name, url, image, sameAs, jobTitle and description, none twice |
| Seo.ProfileRecord | src/components/SEO.tsx:38-47 | A profile record's name is the author, not the title, with the GitHub profile under sameAs and the job title 'Software Developer' |
| Seo.ArticleKeys | src/components/SEO.tsx:48-59 | An article record's keys, without repeats; 'datePublished' iff the published date is truthy, 'dateModified' iff the modified date is |
| Seo.ArticleRecord | src/components/SEO.tsx:48-59 | An article's headline is the title, and each date carried is the one given |
| Seo.NoForeignKeys | src/components/SEO.tsx:28-59 | No type-specific key of one type appears in another type's record; only an article carries dates |
| Seo.PropsForPath | src/components/App.tsx:38-91 | The SEO props App renders for a pathname: title, description, url and type from the route, defaults for the rest; PagesFromApp states the consequences |
| Seo.PagesFromApp | src/components/App.tsx:49-54 | The About page is described as a Person named 'Ani', and no page App describes carries a published date |
| ArticleDetail.FindMatch | src/components/ArticleDetail.tsx:118 | The regex search for 'language-' followed by a word character; specified by FindMatchSpec |
| ArticleDetail.WordRun | src/components/ArticleDetail.tsx:118 | The `\w+` group; specified by WordRunSpec |
| ArticleDetail.CodeLanguage | src/components/ArticleDetail.tsx:118-119 | The captured language of a class name; specified by CodeLanguageSpec |
| ArticleDetail.FindMatchSpec | src/components/ArticleDetail.tsx:118 | The leftmost position where 'language-' is followed by a word character |
| ArticleDetail.WordRunSpec | src/components/ArticleDetail.tsx:118 | `\w+` taken greedily: the longest run of word characters |
| ArticleDetail.CodeLanguageSpec | src/components/ArticleDetail.tsx:118-119 | No language iff no 'language-' is followed by a word character; otherwise the maximal word run after the leftmost such one |
| ArticleDetail.StripTrailingNewline | src/components/ArticleDetail.tsx:122 | Removes one trailing newline if present, else nothing |
| ArticleDetail.StripOnlyOneNewline | src/components/ArticleDetail.tsx:122 | A chart ending in two newlines keeps one |
| ArticleDetail.RenderCode | src/components/ArticleDetail.tsx:117-130 | A Mermaid diagram iff the language is exactly 'mermaid', with the trailing newline stripped; otherwise the code with its class name and text untouched |
| ArticleDetail.MermaidClass | src/components/ArticleDetail.tsx:118-121 | 'language-mermaid' gives 'mermaid', and no class name gives no language |
| ArticleDetail.LongerLanguageIsNotMermaid | src/components/ArticleDetail.tsx:118-121 | 'language-mermaidx' gives 'mermaidx', not a diagram |
| ArticleDetail.LeftmostLanguageWins | src/components/ArticleDetail.tsx:118-119 | The leftmost language wins over a later 'language-mermaid' |
| ArticleDetail.NonWordAfterPrefixSkipped | src/components/ArticleDetail.tsx:118-119 | A 'language-' followed by a non-word character is skipped |
| ArticleDetail.LinkHref | src/components/ArticleDetail.tsx:116 | The link override receives the href, or '' when there is none |
| ArticleDetail.ArticlePage.constructor | src/components/ArticleDetail.tsx:28-30 | Starts with no article, loading, no error |
| ArticleDetail.ArticlePage.Load | src/components/ArticleDetail.tsx:33-59 | A missing or empty slug gives 'No article specified' without a fetch; a non-ok response gives 'Article not found'; a thrown Error gives its message and anything else 'Failed to load article'; a loaded article is stored; loading ends in every case |
| ArticleDetail.ViewOf | src/components/ArticleDetail.tsx:64-90 | Loading first; then the error, or 'Article not found' with neither error nor article; otherwise the article |

## Left out

- HTTP and filesystem I/O (`fetch`, `fs.*`), `process.exit` and console output: every request and file read is an input value. The sitemap XML serialisation and the writing of `sitemap.xml` are not modelled; the model stops at the `links` list.
- The webpack `apply` hook: it turns an error of `generateSitemap` into a compilation error.
- The 100 ms delays and the `Promise.all` fan-out are not modelled. Only their ordered results are, since `Promise.all` keeps input order.
- Clocks and locale: `new Date()`, the current year, `toISOString` and `toLocaleDateString` are parameters or left out. Date strings are represented by their timestamps.
- ArticleCatalog.SortByDate: promises only a permutation when some record has no parseable date. The comparator is then NaN, and the engine's order is unspecified.
- The sort at Articles.tsx line 44 works in place on the array; the model sorts a sequence.
- A front-matter date that does not parse is modelled like a missing one.
- gray-matter front-matter parsing is not modelled: the front matter is an input. Neither are markdown rendering, Mermaid rendering, react-pdf or framer-motion animation.
- The YouTube link embedding is left out: it needs JavaScript's backtracking regex search. So is the DOM writing in the SEO component's effect.
- Home, GitHubProfileTile, MermaidDiagram, MarkdownRenderer and the webpack and tailwind configuration are not part of this model.
- Strings are sequences of characters. JavaScript's UTF-16 code-unit lengths (for the 100-character truncation) are not distinguished from characters.
- JavaScript objects used as dictionaries are modelled as maps with insertion-ordered keys. Object keys with special behaviour are not modelled:
  - integer-like language names, which `Object.entries` lists first;
  - inherited names such as `constructor`, for which `languageSizes[name]` is truthy before any edge.
- Sitemap.ResolveOptions: does not model a key that is passed with the value `undefined`. The spread would copy that `undefined` over the default.
- A GraphQL body without `data.user`, which would throw a TypeError in the build, is not modelled; the GraphQL body is assumed well-formed.
- The build aborts whenever the user or repository request throws (`RequestThrew`); the error's text is not modelled.
- `stats.totalRepos`, `totalGists` and the user fields are copied from the profile; the model states nothing about them beyond that copy.
- ArticlePivot.Pivot.NavigateTo: takes any integer index. The component only calls it with indices of its article list.
- ResumePager.Pager.Previous and ResumePager.Pager.Next: require the controls to be rendered (more than one page), as the buttons only exist then.
- ArticleDetail.ArticlePage.Load: does not clear an earlier error or article. The source does not either; App remounts the page per pathname.
