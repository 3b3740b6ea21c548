/** The GitHub snapshot builder (scripts/generate-github-data.js) with its
    network and file I/O taken out: the GraphQL response, the user profile,
    the REST repository list, the per-repository language results and the
    gist list are inputs, and the snapshot (or the reason the build aborts)
    is the output. */
module GitHubData {
  import opened Wrappers
  import opened JsText
  import opened Seqs

  /** An API date string, represented by its timestamp in milliseconds. */
  type Timestamp = int

  const PinnedLanguageLimit: nat := 3
  const OtherRepoLimit: nat := 20
  const EnrichedRepoLimit: nat := 15
  const GistLimit: nat := 10
  const TopLanguageLimit: nat := 12

  /** A language with a byte count: a GraphQL language edge, an entry of a
      REST `/languages` object, or an entry of the accumulated totals. */
  datatype LanguageSize = LanguageSize(name: string, size: nat)

  /** A node of `pinnedItems` in the GraphQL response. */
  datatype PinnedNode = PinnedNode(
    name: string,
    description: Option<string>,
    url: string,
    primaryLanguage: Option<string>,
    stargazerCount: nat,
    forkCount: nat,
    updatedAt: Option<Timestamp>,
    pushedAt: Option<Timestamp>,
    topics: Option<seq<string>>,
    homepageUrl: Option<string>,
    isArchived: bool,
    languages: Option<seq<LanguageSize>>)

  /** A node of `repositories` in the GraphQL response. */
  datatype GraphRepoNode = GraphRepoNode(name: string, isFork: bool, languages: Option<seq<LanguageSize>>)

  datatype Contributions = Contributions(commits: nat, pullRequests: nat, issues: nat, repositories: nat)

  /** The GraphQL response body; `errors` is present (even as an empty
      array) exactly when it is `Some`. */
  datatype GraphData = GraphData(
    errors: Option<seq<string>>,
    pinned: seq<PinnedNode>,
    contributions: Contributions,
    repositories: seq<GraphRepoNode>)

  /** An element of the REST repository list. */
  datatype RestRepo = RestRepo(
    name: string,
    fork: bool,
    description: Option<string>,
    htmlUrl: string,
    language: Option<string>,
    stargazersCount: nat,
    forksCount: nat,
    pushedAt: Option<Timestamp>,
    updatedAt: Option<Timestamp>,
    topics: Option<seq<string>>,
    homepage: Option<string>,
    archived: bool)

  datatype UserProfile = UserProfile(
    login: string,
    name: Option<string>,
    bio: Option<string>,
    avatarUrl: string,
    htmlUrl: string,
    blog: Option<string>,
    twitterUsername: Option<string>,
    publicRepos: nat,
    publicGists: nat,
    followers: nat,
    following: nat,
    createdAt: Timestamp)

  /** An element of the REST gist list; `files` holds the keys of its
      `files` object in order. */
  datatype Gist = Gist(
    id: string,
    description: Option<string>,
    htmlUrl: string,
    files: seq<string>,
    isPublic: bool,
    createdAt: Timestamp,
    updatedAt: Timestamp)

  /** The outcome of one HTTP request: an ok response with its body, a
      response whose status is not ok, or a thrown error. */
  datatype Response<T> = Ok(body: T) | NotOk(status: int) | Threw

  /** The outcome of a per-repository `/languages` request; an ok response
      carries the entries of the returned object in order. */
  datatype LanguagesFetch = LanguagesOk(entries: seq<LanguageSize>) | LanguagesNotOk | LanguagesThrew

  /** Why the build produces no snapshot. */
  datatype BuildError =
    | MissingToken
    | GraphQLFailed(status: int)
    | GraphQLErrors(errors: seq<string>)
    | UserFailed(status: int)
    | ReposFailed(status: int)
    | RequestThrew

  datatype RepoSummary = RepoSummary(
    name: string,
    description: Option<string>,
    htmlUrl: string,
    language: Option<string>,
    allLanguages: seq<string>,
    stargazersCount: nat,
    forksCount: nat,
    updatedAt: Option<Timestamp>,
    topics: seq<string>,
    homepage: Option<string>,
    archived: bool)

  datatype GistSummary = GistSummary(
    id: string,
    description: string,
    htmlUrl: string,
    files: seq<string>,
    createdAt: Timestamp,
    updatedAt: Timestamp)

  datatype Stats = Stats(
    totalStars: nat,
    totalForks: nat,
    totalRepos: nat,
    totalGists: nat,
    languages: seq<string>,
    contributionsThisYear: nat,
    currentYear: int)

  datatype Snapshot = Snapshot(
    user: UserProfile,
    stats: Stats,
    pinnedRepos: seq<RepoSummary>,
    otherRepos: seq<RepoSummary>,
    gists: seq<GistSummary>,
    lastUpdated: Timestamp)

  function SizeOf(l: LanguageSize): int {
    l.size
  }

  function Names(ls: seq<LanguageSize>): (r: seq<string>)
    ensures |r| == |ls|
    ensures forall i :: 0 <= i < |ls| ==> r[i] == ls[i].name
  {
    seq(|ls|, i requires 0 <= i < |ls| => ls[i].name)
  }

  /** The names of the `n` largest languages, largest first:
      `.sort((a, b) => b.size - a.size).slice(0, n).map(name)`. */
  function RankLanguages(ls: seq<LanguageSize>, n: nat): (r: seq<string>)
    ensures |r| == Min(n, |ls|)
    ensures exists top :: IsTopRanking(top, ls, SizeOf, n) && KeepsTieOrder(top, ls, SizeOf) && r == Names(top)
  {
    var top := TopK(ls, SizeOf, n);
    assert IsTopRanking(top, ls, SizeOf, n) && KeepsTieOrder(top, ls, SizeOf);
    Names(top)
  }

  /** `a || b` for two date fields. */
  function EitherDate(a: Option<Timestamp>, b: Option<Timestamp>): Option<Timestamp> {
    if a.Some? then a else b
  }

  // ---------------------------------------------------------------------
  // Pinned repositories (lines 111-126)

  function ShapePinned(node: PinnedNode): (r: RepoSummary)
    ensures r.name == node.name && r.htmlUrl == node.url
    ensures |r.allLanguages| <= PinnedLanguageLimit
    ensures node.languages.None? ==> r.allLanguages == []
    ensures node.languages.Some? ==>
      exists top :: IsTopRanking(top, node.languages.value, SizeOf, PinnedLanguageLimit) && KeepsTieOrder(top, node.languages.value, SizeOf) && r.allLanguages == Names(top)
    ensures r.updatedAt == if node.pushedAt.Some? then node.pushedAt else node.updatedAt
    ensures r.language == node.primaryLanguage
    ensures r.description == node.description && r.archived == node.isArchived
    ensures r.stargazersCount == node.stargazerCount && r.forksCount == node.forkCount
    ensures node.topics.None? ==> r.topics == []
    ensures node.topics.Some? ==> r.topics == node.topics.value
    ensures r.homepage.Some? <==> Truthy(node.homepageUrl)
    ensures Truthy(node.homepageUrl) ==> r.homepage == node.homepageUrl
  {
    RepoSummary(
      node.name,
      node.description,
      node.url,
      node.primaryLanguage,
      if node.languages.Some? then RankLanguages(node.languages.value, PinnedLanguageLimit) else [],
      node.stargazerCount,
      node.forkCount,
      EitherDate(node.pushedAt, node.updatedAt),
      if node.topics.Some? then node.topics.value else [],
      OrAbsent(node.homepageUrl),
      node.isArchived)
  }

  function ShapeAllPinned(nodes: seq<PinnedNode>): (r: seq<RepoSummary>)
    ensures |r| == |nodes|
    ensures forall i :: 0 <= i < |nodes| ==> r[i] == ShapePinned(nodes[i])
  {
    seq(|nodes|, i requires 0 <= i < |nodes| => ShapePinned(nodes[i]))
  }

  function PinnedNames(pinned: seq<RepoSummary>): set<string> {
    set r | r in pinned :: r.name
  }

  // ---------------------------------------------------------------------
  // Other repositories: selection (lines 145-149)

  /** `new Date(pushed_at || updated_at)`; `new Date(null)` is the epoch. */
  function RecencyKey(r: RestRepo): int {
    match EitherDate(r.pushedAt, r.updatedAt)
    case Some(t) => t
    case None => 0
  }

  predicate Eligible(r: RestRepo, pinnedNames: set<string>) {
    !r.fork && r.name !in pinnedNames
  }

  function SelectOtherRepos(repos: seq<RestRepo>, pinnedNames: set<string>): (r: seq<RestRepo>)
    ensures |r| <= OtherRepoLimit
    ensures forall x :: x in r ==> x in repos && !x.fork && x.name !in pinnedNames
    ensures SortedDesc(r, RecencyKey)
    ensures forall x, y :: x in repos && Eligible(x, pinnedNames) && x !in r && y in r ==> RecencyKey(y) >= RecencyKey(x)
    ensures |r| == Min(OtherRepoLimit, |Filter(repos, x => Eligible(x, pinnedNames))|)
    ensures KeepsTieOrder(r, Filter(repos, x => Eligible(x, pinnedNames)), RecencyKey)
  {
    var eligible := Filter(repos, x => Eligible(x, pinnedNames));
    var r := TopK(eligible, RecencyKey, OtherRepoLimit);
    forall x | x in r ensures x in eligible {
      assert x in multiset(r);
    }
    r
  }

  // ---------------------------------------------------------------------
  // Other repositories: enrichment and fallback (lines 152-221)

  /** The record built at lines 173-185, 189-201 and 206-218, for a given
      language list. */
  function Summarize(repo: RestRepo, allLanguages: seq<string>): RepoSummary {
    RepoSummary(
      repo.name,
      repo.description,
      repo.htmlUrl,
      repo.language,
      allLanguages,
      repo.stargazersCount,
      repo.forksCount,
      EitherDate(repo.pushedAt, repo.updatedAt),
      if repo.topics.Some? then repo.topics.value else [],
      OrAbsent(repo.homepage),
      repo.archived)
  }

  /** `repo.language ? [repo.language] : []`. */
  function FallbackLanguages(repo: RestRepo): (r: seq<string>)
    ensures Truthy(repo.language) ==> r == [repo.language.value]
    ensures !Truthy(repo.language) ==> r == []
  {
    if Truthy(repo.language) then [repo.language.value] else []
  }

  /** One repository among the first fifteen: its `/languages` request
      decides the language list. */
  function Enrich(repo: RestRepo, fetch: LanguagesFetch): (r: RepoSummary)
    ensures fetch.LanguagesOk? ==>
      exists top :: IsTopRanking(top, fetch.entries, SizeOf, PinnedLanguageLimit) && KeepsTieOrder(top, fetch.entries, SizeOf) && r.allLanguages == Names(top)
    ensures !fetch.LanguagesOk? ==> r.allLanguages == FallbackLanguages(repo)
    ensures r == Summarize(repo, r.allLanguages)
  {
    match fetch
    case LanguagesOk(entries) => Summarize(repo, RankLanguages(entries, PinnedLanguageLimit))
    case LanguagesNotOk => Summarize(repo, FallbackLanguages(repo))
    case LanguagesThrew => Summarize(repo, FallbackLanguages(repo))
  }

  /** `[...results, ...remaining]`: `Promise.all` over the first fifteen
      keeps their order, and the rest follow with the primary-language
      fallback. `languagesOf` gives the outcome of the `/languages` request
      for a repository name. */
  function OtherRepos(base: seq<RestRepo>, languagesOf: string -> LanguagesFetch): (r: seq<RepoSummary>)
    ensures |r| == |base|
    ensures forall i :: 0 <= i < |r| ==> r[i].name == base[i].name && r[i].updatedAt == EitherDate(base[i].pushedAt, base[i].updatedAt)
    ensures forall i :: 0 <= i < |r| && i < EnrichedRepoLimit ==> r[i] == Enrich(base[i], languagesOf(base[i].name))
    ensures forall i :: EnrichedRepoLimit <= i < |r| ==> r[i] == Summarize(base[i], FallbackLanguages(base[i]))
  {
    var r := seq(|base|, i requires 0 <= i < |base| =>
      if i < EnrichedRepoLimit then Enrich(base[i], languagesOf(base[i].name))
      else Summarize(base[i], FallbackLanguages(base[i])));
    forall i | 0 <= i < |r| ensures r[i].name == base[i].name && r[i].updatedAt == EitherDate(base[i].pushedAt, base[i].updatedAt) {
      if i < EnrichedRepoLimit {
        var e := Enrich(base[i], languagesOf(base[i].name));
        assert r[i] == e == Summarize(base[i], e.allLanguages);
      } else {
        assert r[i] == Summarize(base[i], FallbackLanguages(base[i]));
      }
    }
    r
  }

  // ---------------------------------------------------------------------
  // Gists (lines 224-247)

  function SummarizeGist(g: Gist): GistSummary {
    GistSummary(g.id, OrElse(g.description, "No description"), g.htmlUrl, g.files, g.createdAt, g.updatedAt)
  }

  function PublicGists(gists: seq<Gist>): seq<Gist> {
    Filter(gists, (g: Gist) => g.isPublic)
  }

  /** `.filter(public).map(summary).slice(0, 10)`: the first ten public
      gists in the order the API lists them. */
  function ProcessGists(gists: seq<Gist>): (r: seq<GistSummary>)
    ensures |r| == Min(GistLimit, |PublicGists(gists)|)
    ensures forall i :: 0 <= i < |r| ==>
      var g := PublicGists(gists)[i];
      g in gists && g.isPublic && r[i].id == g.id && r[i].files == g.files &&
      r[i].description == (if Truthy(g.description) then g.description.value else "No description")
  {
    var kept := PublicGists(gists);
    var r := Take(seq(|kept|, i requires 0 <= i < |kept| => SummarizeGist(kept[i])), GistLimit);
    forall i | 0 <= i < |r| ensures kept[i] in gists && kept[i].isPublic && r[i] == SummarizeGist(kept[i]) {
      assert kept[i] in kept;
    }
    r
  }

  /** The gist request is optional: a non-ok response or a thrown error
      leaves the list empty. */
  function GistsFrom(resp: Response<seq<Gist>>): (r: seq<GistSummary>)
    ensures |r| <= GistLimit
    ensures !resp.Ok? ==> r == []
  {
    if resp.Ok? then ProcessGists(resp.body) else []
  }

  // ---------------------------------------------------------------------
  // Language totals (lines 250-273)

  function EdgesOf(repo: GraphRepoNode): seq<LanguageSize> {
    if !repo.isFork && repo.languages.Some? then repo.languages.value else []
  }

  /** Every language edge the nested `forEach` visits, in visiting order. */
  function VisitedEdges(repos: seq<GraphRepoNode>): seq<LanguageSize> {
    if repos == [] then []
    else VisitedEdges(repos[..|repos| - 1]) + EdgesOf(repos[|repos| - 1])
  }

  /** The distinct strings of `s` in order of first appearance: the key
      order of a JavaScript object filled in that order. */
  function FirstSeen(s: seq<string>): (r: seq<string>)
    ensures forall x :: x in r <==> x in s
    ensures forall i, j :: 0 <= i < j < |r| ==> r[i] != r[j]
  {
    if s == [] then []
    else
      var d := FirstSeen(s[..|s| - 1]);
      assert forall x :: x in s <==> x in s[..|s| - 1] || x == s[|s| - 1] by {
        assert s == s[..|s| - 1] + [s[|s| - 1]];
      }
      if s[|s| - 1] in d then d else d + [s[|s| - 1]]
  }

  /** `a` first occurs in `s` before `b` does. */
  predicate OccursBefore(s: seq<string>, a: string, b: string) {
    a in s && b in s && FirstIndex(s, a) < FirstIndex(s, b)
  }

  /** `keys` lists values of `s` in the order of their first occurrences. */
  predicate InFirstOccurrenceOrder(keys: seq<string>, s: seq<string>) {
    forall i, j :: 0 <= i < j < |keys| ==> OccursBefore(s, keys[i], keys[j])
  }

  /** Visiting a key already present keeps the order. */
  lemma OrderKeptOnRepeat(keys: seq<string>, s: seq<string>, y: string)
    requires InFirstOccurrenceOrder(keys, s)
    ensures InFirstOccurrenceOrder(keys, s + [y])
  {
    forall i, j | 0 <= i < j < |keys| ensures OccursBefore(s + [y], keys[i], keys[j]) {
      assert OccursBefore(s, keys[i], keys[j]);
      FirstIndexSnoc(s, y, keys[i]);
      FirstIndexSnoc(s, y, keys[j]);
    }
  }

  /** Visiting a new key appends it last in the order. */
  lemma OrderExtendedOnNewKey(keys: seq<string>, s: seq<string>, y: string)
    requires InFirstOccurrenceOrder(keys, s)
    requires forall x :: x in keys ==> x in s
    requires y !in s
    ensures InFirstOccurrenceOrder(keys + [y], s + [y])
  {
    var t, r := s + [y], keys + [y];
    OrderKeptOnRepeat(keys, s, y);
    assert forall j :: 0 <= j < |s| ==> t[j] == s[j] && t[j] != y;
    assert FirstIndex(t, y) == |s|;
    forall i, j | 0 <= i < j < |r| ensures OccursBefore(t, r[i], r[j]) {
      assert r[i] == keys[i] && keys[i] in s;
      FirstIndexSnoc(s, y, keys[i]);
    }
  }

  /** The keys come in the order their first occurrences have in `s`:
      with the membership and distinctness `FirstSeen` ensures, this fixes
      the key order of the object completely. */
  lemma {:induction false} FirstSeenOrder(s: seq<string>)
    ensures InFirstOccurrenceOrder(FirstSeen(s), s)
  {
    if s == [] {
      assert FirstSeen(s) == [];
    } else {
      var init, y := s[..|s| - 1], s[|s| - 1];
      assert s == init + [y];
      var d := FirstSeen(init);
      FirstSeenOrder(init);
      if y in d {
        assert FirstSeen(s) == d;
        OrderKeptOnRepeat(d, init, y);
      } else {
        assert FirstSeen(s) == d + [y];
        OrderExtendedOnNewKey(d, init, y);
      }
    }
  }

  /** The bytes of language `name` summed over `edges`. */
  function TotalFor(edges: seq<LanguageSize>, name: string): nat {
    if edges == [] then 0
    else TotalFor(edges[..|edges| - 1], name) + (if edges[|edges| - 1].name == name then edges[|edges| - 1].size else 0)
  }

  /** `Object.entries(languageSizes)` after the loops. */
  function LanguageTotals(repos: seq<GraphRepoNode>): (r: seq<LanguageSize>)
    ensures forall e :: e in r ==> e.size == TotalFor(VisitedEdges(repos), e.name)
    ensures forall n :: n in Names(VisitedEdges(repos)) ==> LanguageSize(n, TotalFor(VisitedEdges(repos), n)) in r
    ensures Names(r) == FirstSeen(Names(VisitedEdges(repos)))
  {
    var edges := VisitedEdges(repos);
    var order := FirstSeen(Names(edges));
    var r := seq(|order|, i requires 0 <= i < |order| => LanguageSize(order[i], TotalFor(edges, order[i])));
    forall n | n in Names(edges) ensures LanguageSize(n, TotalFor(edges, n)) in r {
      var i :| 0 <= i < |order| && order[i] == n;
      assert r[i] == LanguageSize(n, TotalFor(edges, n));
    }
    r
  }

  /** Every entry of the totals carries the total of its language. */
  predicate Tallied(entries: seq<LanguageSize>, edges: seq<LanguageSize>) {
    forall e :: e in entries ==> e.size == TotalFor(edges, e.name)
  }

  /** Ranking the totals by size ranks the language names by total bytes. */
  lemma RankedTotalsOrder(edges: seq<LanguageSize>, entries: seq<LanguageSize>, top: seq<LanguageSize>)
    requires Tallied(entries, edges)
    requires forall e :: e in entries ==> e.name in Names(edges)
    requires multiset(top) <= multiset(entries) && SortedDesc(top, SizeOf)
    ensures forall n :: n in Names(top) ==> n in Names(edges)
    ensures forall i, j :: 0 <= i < j < |top| ==> TotalFor(edges, Names(top)[i]) >= TotalFor(edges, Names(top)[j])
  {
    var r := Names(top);
    MultisetSubsetMembers(top, entries);
    forall n | n in r ensures n in Names(edges) {
      var i :| 0 <= i < |top| && r[i] == n;
      assert top[i] in entries;
    }
    forall i, j | 0 <= i < j < |top| ensures TotalFor(edges, r[i]) >= TotalFor(edges, r[j]) {
      assert top[i] in entries && top[j] in entries;
      assert SizeOf(top[i]) >= SizeOf(top[j]);
    }
  }

  /** A language left out of the ranking has no more bytes than any kept one. */
  lemma RankedTotalsDominate(edges: seq<LanguageSize>, entries: seq<LanguageSize>, top: seq<LanguageSize>, m: string, n: string)
    requires Tallied(entries, edges)
    requires LanguageSize(n, TotalFor(edges, n)) in entries
    requires forall x, y :: x in entries && x !in top && y in top ==> SizeOf(y) >= SizeOf(x)
    requires multiset(top) <= multiset(entries)
    requires n !in Names(top) && m in Names(top)
    ensures TotalFor(edges, m) >= TotalFor(edges, n)
  {
    var r := Names(top);
    var e := LanguageSize(n, TotalFor(edges, n));
    assert e !in top;
    var i :| 0 <= i < |top| && r[i] == m;
    MultisetSubsetMembers(top, entries);
    assert top[i] in top && top[i] in entries;
    assert SizeOf(top[i]) >= SizeOf(e);
  }

  /** Every entry of the totals names a visited language. */
  lemma TotalsNameVisited(repos: seq<GraphRepoNode>)
    ensures forall e :: e in LanguageTotals(repos) ==> e.name in Names(VisitedEdges(repos))
  {
    var entries := LanguageTotals(repos);
    forall e | e in entries ensures e.name in Names(VisitedEdges(repos)) {
      var i :| 0 <= i < |entries| && entries[i] == e;
      assert Names(entries)[i] == e.name;
    }
  }

  /** `stats.languages`: twelve distinct names, or every visited language
      when there are fewer, ordered by total bytes, and no language left
      out has more bytes than one that is kept. */
  function TopLanguages(repos: seq<GraphRepoNode>): (r: seq<string>)
    ensures |r| <= TopLanguageLimit
    ensures |r| == Min(TopLanguageLimit, |FirstSeen(Names(VisitedEdges(repos)))|)
    ensures forall i, j :: 0 <= i < j < |r| ==> r[i] != r[j]
    ensures forall n :: n in r ==> n in Names(VisitedEdges(repos))
    ensures forall i, j :: 0 <= i < j < |r| ==>
      TotalFor(VisitedEdges(repos), r[i]) >= TotalFor(VisitedEdges(repos), r[j])
    ensures forall m, n :: n in Names(VisitedEdges(repos)) && n !in r && m in r ==>
      TotalFor(VisitedEdges(repos), m) >= TotalFor(VisitedEdges(repos), n)
  {
    RankedLanguages(repos);
    Names(TopK(LanguageTotals(repos), SizeOf, TopLanguageLimit))
  }

  lemma RankedLanguages(repos: seq<GraphRepoNode>)
    ensures var edges := VisitedEdges(repos);
      var r := Names(TopK(LanguageTotals(repos), SizeOf, TopLanguageLimit));
      && |r| <= TopLanguageLimit
      && |r| == Min(TopLanguageLimit, |FirstSeen(Names(edges))|)
      && (forall i, j :: 0 <= i < j < |r| ==> r[i] != r[j])
      && (forall n :: n in r ==> n in Names(edges))
      && (forall i, j :: 0 <= i < j < |r| ==> TotalFor(edges, r[i]) >= TotalFor(edges, r[j]))
      && (forall m, n :: n in Names(edges) && n !in r && m in r ==> TotalFor(edges, m) >= TotalFor(edges, n))
  {
    var edges := VisitedEdges(repos);
    var entries := LanguageTotals(repos);
    var top := TopK(entries, SizeOf, TopLanguageLimit);
    TotalsNameVisited(repos);
    RankedTotalsOrder(edges, entries, top);
    assert |Names(entries)| == |entries|;
    assert Distinct(entries) by {
      forall i, j | 0 <= i < j < |entries| ensures entries[i] != entries[j] {
        assert Names(entries)[i] != Names(entries)[j];
      }
    }
    SubMultisetDistinct(entries, top);
    MultisetSubsetMembers(top, entries);
    forall i, j | 0 <= i < j < |top| ensures Names(top)[i] != Names(top)[j] {
      assert top[i] in entries && top[j] in entries;
    }
    forall m, n | n in Names(edges) && n !in Names(top) && m in Names(top)
      ensures TotalFor(edges, m) >= TotalFor(edges, n)
    {
      RankedTotalsDominate(edges, entries, top, m, n);
    }
  }

  lemma FirstSeenAppend(seen: seq<LanguageSize>, e: LanguageSize)
    ensures FirstSeen(Names(seen + [e])) ==
      if e.name in FirstSeen(Names(seen)) then FirstSeen(Names(seen)) else FirstSeen(Names(seen)) + [e.name]
  {
    var s := Names(seen + [e]);
    assert s[..|s| - 1] == Names(seen);
  }

  lemma TotalForAppend(seen: seq<LanguageSize>, e: LanguageSize, n: string)
    ensures TotalFor(seen + [e], n) == TotalFor(seen, n) + (if e.name == n then e.size else 0)
  {
    assert (seen + [e])[..|seen|] == seen;
  }

  /** A language no edge names has no bytes. */
  lemma {:induction false} TotalForAbsent(seen: seq<LanguageSize>, n: string)
    requires n !in Names(seen)
    ensures TotalFor(seen, n) == 0
  {
    if seen != [] {
      var init := seen[..|seen| - 1];
      assert forall k :: 0 <= k < |init| ==> Names(init)[k] == Names(seen)[k];
      TotalForAbsent(init, n);
    }
  }

  lemma VisitedEdgesStep(repos: seq<GraphRepoNode>, i: nat)
    requires i < |repos|
    ensures VisitedEdges(repos[..i + 1]) == VisitedEdges(repos[..i]) + EdgesOf(repos[i])
  {
    assert repos[..i + 1][..i] == repos[..i];
  }

  /** What the dictionary holds after the loops have visited `seen`. */
  ghost predicate TallyOf(names: seq<string>, sizes: map<string, nat>, seen: seq<LanguageSize>) {
    && names == FirstSeen(Names(seen))
    && (forall n :: n in sizes <==> n in names)
    && (forall n :: n in sizes ==> sizes[n] == TotalFor(seen, n))
  }

  /** Line 261: a language already holding a truthy total is increased. */
  lemma TallyIncrease(names: seq<string>, sizes: map<string, nat>, seen: seq<LanguageSize>, e: LanguageSize)
    requires TallyOf(names, sizes, seen)
    requires e.name in sizes
    ensures TallyOf(names, sizes[e.name := sizes[e.name] + e.size], seen + [e])
  {
    FirstSeenAppend(seen, e);
    TotalsStep(seen, e);
  }

  /** The totals after one more edge: only the edge's own language grows. */
  lemma TotalsStep(seen: seq<LanguageSize>, e: LanguageSize)
    ensures forall n :: TotalFor(seen + [e], n) == TotalFor(seen, n) + (if e.name == n then e.size else 0)
  {
    forall n ensures TotalFor(seen + [e], n) == TotalFor(seen, n) + (if e.name == n then e.size else 0) {
      TotalForAppend(seen, e, n);
    }
  }

  /** Line 263 for a language not yet in the dictionary: it is set to the
      edge's size and appended to the key order. */
  lemma TallySet(names: seq<string>, sizes: map<string, nat>, seen: seq<LanguageSize>, e: LanguageSize)
    requires TallyOf(names, sizes, seen)
    requires e.name !in sizes
    ensures TallyOf(names + [e.name], sizes[e.name := e.size], seen + [e])
  {
    FirstSeenAppend(seen, e);
    TotalsStep(seen, e);
    assert e.name !in Names(seen);
    TotalForAbsent(seen, e.name);
  }

  /** Line 263 for a language present with a zero (falsy) total: it is set
      to the edge's size and the key order is unchanged. */
  lemma TallyReset(names: seq<string>, sizes: map<string, nat>, seen: seq<LanguageSize>, e: LanguageSize)
    requires TallyOf(names, sizes, seen)
    requires e.name in sizes && sizes[e.name] == 0
    ensures TallyOf(names, sizes[e.name := e.size], seen + [e])
  {
    FirstSeenAppend(seen, e);
    TotalsStep(seen, e);
  }

  /** Lines 258-264: one edge added to the dictionary. */
  method AddEdge(names0: seq<string>, sizes0: map<string, nat>, ghost seen: seq<LanguageSize>, edge: LanguageSize)
    returns (names: seq<string>, sizes: map<string, nat>)
    requires TallyOf(names0, sizes0, seen)
    ensures TallyOf(names, sizes, seen + [edge])
  {
    var langName, size := edge.name, edge.size;
    names, sizes := names0, sizes0;
    if langName in sizes && sizes[langName] != 0 {
      TallyIncrease(names, sizes, seen, edge);
      sizes := sizes[langName := sizes[langName] + size];
    } else {
      if langName !in sizes {
        TallySet(names, sizes, seen, edge);
        names := names + [langName];
      } else {
        TallyReset(names, sizes, seen, edge);
      }
      sizes := sizes[langName := size];
    }
  }

  /** Lines 257-265: the inner `forEach` over one repository's edges. */
  method AddEdges(names0: seq<string>, sizes0: map<string, nat>, ghost done: seq<LanguageSize>, edges: seq<LanguageSize>)
    returns (names: seq<string>, sizes: map<string, nat>)
    requires TallyOf(names0, sizes0, done)
    ensures TallyOf(names, sizes, done + edges)
  {
    names, sizes := names0, sizes0;
    ghost var seen := done;
    var j := 0;
    while j < |edges|
      invariant 0 <= j <= |edges|
      invariant seen == done + edges[..j]
      invariant TallyOf(names, sizes, seen)
    {
      names, sizes := AddEdge(names, sizes, seen, edges[j]);
      seen := seen + [edges[j]];
      j := j + 1;
    }
    assert edges[..j] == edges;
  }

  /** Lines 250-267: the `languageSizes` dictionary filled in place by the
      nested loops. `names` is its key order, `sizes` its contents. */
  method AccumulateLanguageSizes(repos: seq<GraphRepoNode>) returns (names: seq<string>, sizes: map<string, nat>)
    ensures names == FirstSeen(Names(VisitedEdges(repos)))
    ensures forall n :: n in sizes <==> n in names
    ensures forall n :: n in sizes ==> sizes[n] == TotalFor(VisitedEdges(repos), n)
  {
    names, sizes := [], map[];
    var i := 0;
    while i < |repos|
      invariant 0 <= i <= |repos|
      invariant TallyOf(names, sizes, VisitedEdges(repos[..i]))
    {
      VisitedEdgesStep(repos, i);
      var repo := repos[i];
      if !repo.isFork && repo.languages.Some? {
        names, sizes := AddEdges(names, sizes, VisitedEdges(repos[..i]), repo.languages.value);
      } else {
        assert VisitedEdges(repos[..i]) + EdgesOf(repo) == VisitedEdges(repos[..i]);
      }
      i := i + 1;
    }
    assert repos[..i] == repos;
  }

  // ---------------------------------------------------------------------
  // Totals (lines 276-287) and the whole build (lines 10-317)

  predicate IsOwn(r: RestRepo) {
    !r.fork
  }

  /** `reposData.filter(repo => !repo.fork)`. */
  function NonForks(repos: seq<RestRepo>): seq<RestRepo> {
    Filter(repos, IsOwn)
  }

  function Stars(r: RestRepo): nat { r.stargazersCount }

  function Forks(r: RestRepo): nat { r.forksCount }

  function TotalContributions(c: Contributions): nat {
    c.commits + c.pullRequests + c.issues + c.repositories
  }

  /** The build with its requests as inputs. `token` is the environment
      variable, `languagesOf` the outcome of each repository's `/languages`
      request, `currentYear` and `now` the clock. The token and the three
      mandatory requests (GraphQL, user, repositories) abort the build when
      they fail; the gist and per-repository language requests never do. */
  function Generate(
    token: Option<string>,
    graph: Response<GraphData>,
    user: Response<UserProfile>,
    repos: Response<seq<RestRepo>>,
    languagesOf: string -> LanguagesFetch,
    gists: Response<seq<Gist>>,
    currentYear: int,
    now: Timestamp): (r: Result<Snapshot, BuildError>)
    ensures r.Success? <==> Truthy(token) && graph.Ok? && graph.body.errors.None? && user.Ok? && repos.Ok?
    ensures !Truthy(token) ==> r == Failure(MissingToken)
    ensures Truthy(token) && graph.NotOk? ==> r == Failure(GraphQLFailed(graph.status))
    ensures Truthy(token) && graph.Ok? && graph.body.errors.Some? ==> r == Failure(GraphQLErrors(graph.body.errors.value))
  {
    if !Truthy(token) then Failure(MissingToken)
    else if graph.NotOk? then Failure(GraphQLFailed(graph.status))
    else if graph.Threw? then Failure(RequestThrew)
    else if graph.body.errors.Some? then Failure(GraphQLErrors(graph.body.errors.value))
    else
      var data := graph.body;
      var pinnedRepos := ShapeAllPinned(data.pinned);
      if user.NotOk? then Failure(UserFailed(user.status))
      else if user.Threw? then Failure(RequestThrew)
      else if repos.NotOk? then Failure(ReposFailed(repos.status))
      else if repos.Threw? then Failure(RequestThrew)
      else
        var profile := user.body;
        var base := SelectOtherRepos(repos.body, PinnedNames(pinnedRepos));
        var ownRepos := NonForks(repos.body);
        var languages := TopLanguages(data.repositories);
        Success(Snapshot(
          profile,
          Stats(
            SumOf(ownRepos, Stars),
            SumOf(ownRepos, Forks),
            profile.publicRepos,
            profile.publicGists,
            Take(languages, TopLanguageLimit),
            TotalContributions(data.contributions),
            currentYear),
          pinnedRepos,
          OtherRepos(base, languagesOf),
          GistsFrom(gists),
          now))
  }

  /** `updated_at || 0` of a summary, the same key the selection sorted by. */
  function SummaryRecency(s: RepoSummary): int {
    match s.updatedAt
    case Some(t) => t
    case None => 0
  }

  /** The snapshot's other repositories: at most twenty, newest first, no
      fork and no pinned repository among them, every one from the REST
      list. */
  lemma {:induction false} SnapshotOtherRepos(
    token: Option<string>, graph: Response<GraphData>, user: Response<UserProfile>,
    repos: Response<seq<RestRepo>>, languagesOf: string -> LanguagesFetch,
    gists: Response<seq<Gist>>, currentYear: int, now: Timestamp)
    requires Generate(token, graph, user, repos, languagesOf, gists, currentYear, now).Success?
    ensures var s := Generate(token, graph, user, repos, languagesOf, gists, currentYear, now).value;
      && |s.otherRepos| <= OtherRepoLimit
      && SortedDesc(s.otherRepos, SummaryRecency)
      && (forall x :: x in s.otherRepos ==> x.name !in PinnedNames(s.pinnedRepos))
      && (forall x :: x in s.otherRepos ==> exists y :: y in repos.body && !y.fork && y.name == x.name)
  {
    var s := Generate(token, graph, user, repos, languagesOf, gists, currentYear, now).value;
    SnapshotParts(token, graph, user, repos, languagesOf, gists, currentYear, now);
    SelectedReposSummarized(repos.body, PinnedNames(s.pinnedRepos), languagesOf);
  }

  /** The summaries of the selected repositories keep the selection's
      bounds, order and provenance. */
  lemma SelectedReposSummarized(all: seq<RestRepo>, pinnedNames: set<string>, languagesOf: string -> LanguagesFetch)
    ensures var o := OtherRepos(SelectOtherRepos(all, pinnedNames), languagesOf);
      && |o| <= OtherRepoLimit
      && SortedDesc(o, SummaryRecency)
      && (forall x :: x in o ==> x.name !in pinnedNames)
      && (forall x :: x in o ==> exists y :: y in all && !y.fork && y.name == x.name)
  {
    var base := SelectOtherRepos(all, pinnedNames);
    var o := OtherRepos(base, languagesOf);
    forall i | 0 <= i < |o| ensures SummaryRecency(o[i]) == RecencyKey(base[i]) {
    }
    forall x | x in o
      ensures x.name !in pinnedNames
      ensures exists y :: y in all && !y.fork && y.name == x.name
    {
      var i :| 0 <= i < |o| && o[i] == x;
      assert base[i] in base;
    }
  }

  /** The optional requests never decide whether a snapshot is produced,
      and a failed gist request yields an empty gist list. */
  lemma OptionalRequestsDegrade(
    token: Option<string>, graph: Response<GraphData>, user: Response<UserProfile>,
    repos: Response<seq<RestRepo>>, languagesOf: string -> LanguagesFetch,
    languagesOf': string -> LanguagesFetch, gists: Response<seq<Gist>>, gists': Response<seq<Gist>>,
    currentYear: int, now: Timestamp)
    requires Generate(token, graph, user, repos, languagesOf, gists, currentYear, now).Success?
    ensures Generate(token, graph, user, repos, languagesOf', gists', currentYear, now).Success?
    ensures !gists'.Ok? ==> Generate(token, graph, user, repos, languagesOf', gists', currentYear, now).value.gists == []
  {
  }

  /** Stars and forks count every non-fork repository of the full REST
      list, including pinned ones and those beyond the twenty kept. */
  lemma {:induction false} TotalsCoverEveryOwnRepo(
    token: Option<string>, graph: Response<GraphData>, user: Response<UserProfile>,
    repos: Response<seq<RestRepo>>, languagesOf: string -> LanguagesFetch,
    gists: Response<seq<Gist>>, currentYear: int, now: Timestamp, x: RestRepo)
    requires Generate(token, graph, user, repos, languagesOf, gists, currentYear, now).Success?
    requires x in repos.body && !x.fork
    ensures var s := Generate(token, graph, user, repos, languagesOf, gists, currentYear, now).value;
      s.stats.totalStars >= x.stargazersCount && s.stats.totalForks >= x.forksCount
  {
    var own := NonForks(repos.body);
    assert x in own;
    var i :| 0 <= i < |own| && own[i] == x;
    SumOfCovers(own, Stars, i);
    SumOfCovers(own, Forks, i);
  }

  /** The star and fork totals over a longer REST list: a fork adds
      nothing and any other repository adds exactly its own count. */
  lemma OwnTotalSnoc(repos: seq<RestRepo>, x: RestRepo, f: RestRepo -> nat)
    ensures SumOf(NonForks(repos + [x]), f) == SumOf(NonForks(repos), f) + (if x.fork then 0 else f(x))
  {
    var own := NonForks(repos);
    FilterSnoc(repos, x, IsOwn);
    if x.fork {
      assert NonForks(repos + [x]) == own + [] == own;
    } else {
      assert NonForks(repos + [x]) == own + [x];
      SumOfSnoc(own, x, f);
    }
  }

  /** `totalStars` and `totalForks` are sums over exactly the non-fork
      repositories of the REST list (`OwnTotalSnoc` says what each one
      adds). */
  lemma SnapshotTotals(
    token: Option<string>, graph: Response<GraphData>, user: Response<UserProfile>,
    repos: Response<seq<RestRepo>>, languagesOf: string -> LanguagesFetch,
    gists: Response<seq<Gist>>, currentYear: int, now: Timestamp)
    requires Generate(token, graph, user, repos, languagesOf, gists, currentYear, now).Success?
    ensures var s := Generate(token, graph, user, repos, languagesOf, gists, currentYear, now).value;
      && s.stats.totalStars == SumOf(NonForks(repos.body), Stars)
      && s.stats.totalForks == SumOf(NonForks(repos.body), Forks)
  {
  }

  /** Where each part of a successful snapshot comes from. */
  lemma SnapshotParts(
    token: Option<string>, graph: Response<GraphData>, user: Response<UserProfile>,
    repos: Response<seq<RestRepo>>, languagesOf: string -> LanguagesFetch,
    gists: Response<seq<Gist>>, currentYear: int, now: Timestamp)
    requires Generate(token, graph, user, repos, languagesOf, gists, currentYear, now).Success?
    ensures var s := Generate(token, graph, user, repos, languagesOf, gists, currentYear, now).value;
      && s.stats.languages == TopLanguages(graph.body.repositories)
      && s.stats.contributionsThisYear == TotalContributions(graph.body.contributions)
      && s.pinnedRepos == ShapeAllPinned(graph.body.pinned)
      && s.gists == GistsFrom(gists)
      && s.otherRepos == OtherRepos(SelectOtherRepos(repos.body, PinnedNames(s.pinnedRepos)), languagesOf)
  {
  }

  /** `stats.languages` ranks the languages of the non-fork GraphQL
      repositories by total bytes, keeping at most twelve. */
  lemma SnapshotLanguages(
    token: Option<string>, graph: Response<GraphData>, user: Response<UserProfile>,
    repos: Response<seq<RestRepo>>, languagesOf: string -> LanguagesFetch,
    gists: Response<seq<Gist>>, currentYear: int, now: Timestamp)
    requires Generate(token, graph, user, repos, languagesOf, gists, currentYear, now).Success?
    ensures var langs := Generate(token, graph, user, repos, languagesOf, gists, currentYear, now).value.stats.languages;
      var edges := VisitedEdges(graph.body.repositories);
      && |langs| == Min(TopLanguageLimit, |FirstSeen(Names(edges))|)
      && (forall i, j :: 0 <= i < j < |langs| ==> langs[i] != langs[j])
      && (forall n :: n in langs ==> n in Names(edges))
      && (forall i, j :: 0 <= i < j < |langs| ==> TotalFor(edges, langs[i]) >= TotalFor(edges, langs[j]))
      && (forall m, n :: n in Names(edges) && n !in langs && m in langs ==> TotalFor(edges, m) >= TotalFor(edges, n))
  {
    SnapshotParts(token, graph, user, repos, languagesOf, gists, currentYear, now);
  }

  /** The contributions are the sum of the four counts, every pinned
      repository keeps at most three languages, and the gists are at most
      ten public ones. */
  lemma SnapshotLists(
    token: Option<string>, graph: Response<GraphData>, user: Response<UserProfile>,
    repos: Response<seq<RestRepo>>, languagesOf: string -> LanguagesFetch,
    gists: Response<seq<Gist>>, currentYear: int, now: Timestamp)
    requires Generate(token, graph, user, repos, languagesOf, gists, currentYear, now).Success?
    ensures var s := Generate(token, graph, user, repos, languagesOf, gists, currentYear, now).value;
      && s.stats.contributionsThisYear == graph.body.contributions.commits + graph.body.contributions.pullRequests
           + graph.body.contributions.issues + graph.body.contributions.repositories
      && |s.pinnedRepos| == |graph.body.pinned|
      && (forall p :: p in s.pinnedRepos ==> |p.allLanguages| <= PinnedLanguageLimit)
      && |s.gists| <= GistLimit
      && (gists.Ok? ==> forall i :: 0 <= i < |s.gists| ==> exists g :: g in gists.body && g.isPublic && g.id == s.gists[i].id)
  {
    SnapshotParts(token, graph, user, repos, languagesOf, gists, currentYear, now);
    PinnedLanguagesBounded(graph.body.pinned);
    GistsArePublic(gists);
  }

  /** Every pinned repository carries at most three languages. */
  lemma PinnedLanguagesBounded(nodes: seq<PinnedNode>)
    ensures forall p :: p in ShapeAllPinned(nodes) ==> |p.allLanguages| <= PinnedLanguageLimit
  {
    var pinned := ShapeAllPinned(nodes);
    forall p | p in pinned ensures |p.allLanguages| <= PinnedLanguageLimit {
      var i :| 0 <= i < |pinned| && pinned[i] == p;
      assert p == ShapePinned(nodes[i]);
    }
  }

  /** Every gist kept is a public gist of the response. */
  lemma GistsArePublic(gists: Response<seq<Gist>>)
    ensures gists.Ok? ==> forall i :: 0 <= i < |GistsFrom(gists)| ==>
      exists g :: g in gists.body && g.isPublic && g.id == GistsFrom(gists)[i].id
  {
    if gists.Ok? {
      var r := GistsFrom(gists);
      forall i | 0 <= i < |r| ensures exists g :: g in gists.body && g.isPublic && g.id == r[i].id {
        var g := PublicGists(gists.body)[i];
        assert g in gists.body && g.isPublic && g.id == r[i].id;
      }
    }
  }

  /** Forks add nothing to the language totals. */
  lemma ForksAddNoBytes(repos: seq<GraphRepoNode>, fork: GraphRepoNode)
    requires fork.isFork
    ensures VisitedEdges(repos + [fork]) == VisitedEdges(repos)
  {
    assert (repos + [fork])[..|repos|] == repos;
  }
}
