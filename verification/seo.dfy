/** The SEO component's properties and its schema.org JSON-LD record
    (src/components/SEO.tsx): the defaults of omitted properties and the
    structured-data object, whose keys depend on the page type. */
module Seo {
  import opened Wrappers
  import opened JsText
  import opened AppRoutes

  const SiteUrl := "https://www.anionline.me/"
  const DefaultImage := "https://www.anionline.me/assets/Ani.JPEG"
  const DefaultAuthor := "Ani"
  const GitHubProfileUrl := "https://github.com/aniongithub"

  /** The properties as passed; an omitted one is None (`undefined`). */
  datatype SeoInput = SeoInput(
    title: Option<string>,
    description: Option<string>,
    url: Option<string>,
    image: Option<string>,
    pageType: Option<PageType>,
    publishedDate: Option<string>,
    modifiedDate: Option<string>,
    author: Option<string>)

  /** The properties after destructuring with defaults. */
  datatype ResolvedProps = ResolvedProps(
    title: string,
    description: string,
    url: string,
    image: string,
    pageType: PageType,
    publishedDate: Option<string>,
    modifiedDate: Option<string>,
    author: string)

  /** The property names the record uses. */
  datatype Key =
    | Context | Type | Name | Description | Url | Author | Image
    | SameAs | JobTitle | Headline | DatePublished | DateModified

  /** The property name as written in the JSON-LD text. */
  function KeyName(k: Key): string {
    match k
    case Context => "@context"
    case Type => "@type"
    case Name => "name"
    case Description => "description"
    case Url => "url"
    case Author => "author"
    case Image => "image"
    case SameAs => "sameAs"
    case JobTitle => "jobTitle"
    case Headline => "headline"
    case DatePublished => "datePublished"
    case DateModified => "dateModified"
  }

  /** Distinct keys are distinct property names. */
  lemma KeyNameInjective(a: Key, b: Key)
    requires KeyName(a) == KeyName(b)
    ensures a == b
  {
    assert |KeyName(a)| == |KeyName(b)|;
    assert KeyName(a)[0] == KeyName(b)[0];
    assert KeyName(a)[1] == KeyName(b)[1];
  }

  /** A JSON value; an object is its list of members in insertion order. */
  datatype Json = JStr(s: string) | JArr(elems: seq<Json>) | JObj(members: seq<(Key, Json)>)

  function Default<T>(v: Option<T>, d: T): T {
    if v.Some? then v.value else d
  }

  /** Lines 14-23: a default replaces only an omitted property (an empty
      string is kept); the two dates have no default. */
  function ResolveProps(input: SeoInput): (r: ResolvedProps)
    ensures input.title.None? ==> r.title == HomeProps.title
    ensures input.description.None? ==> r.description == HomeDescription
    ensures input.url.None? ==> r.url == SiteUrl
    ensures input.image.None? ==> r.image == DefaultImage
    ensures input.pageType.None? ==> r.pageType == Website
    ensures input.author.None? ==> r.author == DefaultAuthor
    ensures input.title.Some? ==> r.title == input.title.value
    ensures input.description.Some? ==> r.description == input.description.value
    ensures input.url.Some? ==> r.url == input.url.value
    ensures input.image.Some? ==> r.image == input.image.value
    ensures input.pageType.Some? ==> r.pageType == input.pageType.value
    ensures input.author.Some? ==> r.author == input.author.value
    ensures r.publishedDate == input.publishedDate && r.modifiedDate == input.modifiedDate
  {
    ResolvedProps(
      Default(input.title, "Ani Balasubramaniam's website"),
      Default(input.description, HomeDescription),
      Default(input.url, SiteUrl),
      Default(input.image, DefaultImage),
      Default(input.pageType, Website),
      input.publishedDate,
      input.modifiedDate,
      Default(input.author, DefaultAuthor))
  }

  function SchemaType(t: PageType): string {
    match t
    case Article => "Article"
    case Profile => "Person"
    case Website => "WebSite"
  }

  function Keys(members: seq<(Key, Json)>): seq<Key> {
    seq(|members|, i requires 0 <= i < |members| => members[i].0)
  }

  lemma KeysAppend(a: seq<(Key, Json)>, b: seq<(Key, Json)>)
    ensures Keys(a + b) == Keys(a) + Keys(b)
  {
  }

  predicate DistinctKeys(members: seq<(Key, Json)>) {
    forall i, j :: 0 <= i < j < |members| ==> members[i].0 != members[j].0
  }

  /** The value stored under `k`: the first member with that key. */
  function Get(members: seq<(Key, Json)>, k: Key): Option<Json> {
    if members == [] then None
    else if members[0].0 == k then Some(members[0].1)
    else Get(members[1..], k)
  }

  /** A key that is not there is not found. */
  lemma {:induction false} GetAbsent(members: seq<(Key, Json)>, k: Key)
    requires k !in Keys(members)
    ensures Get(members, k).None?
  {
    if members != [] {
      assert Keys(members)[0] == members[0].0;
      assert Keys(members[1..]) == Keys(members)[1..];
      GetAbsent(members[1..], k);
    }
  }

  /** In an object without repeated keys every member is found by its key. */
  lemma {:induction false} GetMember(members: seq<(Key, Json)>, i: nat)
    requires DistinctKeys(members) && i < |members|
    ensures Get(members, members[i].0) == Some(members[i].1)
  {
    if i > 0 {
      assert members[1..][i - 1] == members[i];
      GetMember(members[1..], i - 1);
    }
  }

  /** `...(cond && { ... })`: the members when the condition holds,
      nothing otherwise. */
  function SpreadIf(cond: bool, members: seq<(Key, Json)>): seq<(Key, Json)> {
    if cond then members else []
  }

  function WebsiteMembers(p: ResolvedProps): seq<(Key, Json)> {
    [(Name, JStr(p.title)),
     (Description, JStr(p.description)),
     (Url, JStr(p.url)),
     (Author, JObj([(Type, JStr("Person")), (Name, JStr(p.author)), (Url, JStr(SiteUrl))]))]
  }

  function ProfileMembers(p: ResolvedProps): seq<(Key, Json)> {
    [(Name, JStr(p.author)),
     (Url, JStr(p.url)),
     (Image, JStr(p.image)),
     (SameAs, JArr([JStr(GitHubProfileUrl)])),
     (JobTitle, JStr("Software Developer")),
     (Description, JStr(p.description))]
  }

  function ArticleMembers(p: ResolvedProps): seq<(Key, Json)> {
    [(Headline, JStr(p.title)),
     (Description, JStr(p.description)),
     (Url, JStr(p.url)),
     (Image, JStr(p.image)),
     (Author, JObj([(Type, JStr("Person")), (Name, JStr(p.author))]))]
    + (if Truthy(p.publishedDate) then [(DatePublished, JStr(p.publishedDate.value))] else [])
    + (if Truthy(p.modifiedDate) then [(DateModified, JStr(p.modifiedDate.value))] else [])
  }

  /** `structuredData` (lines 25-60), as the members of the object:
      '@context' and '@type' first, then the members of the one page type. */
  function StructuredData(p: ResolvedProps): (r: seq<(Key, Json)>)
    ensures |r| >= 2
    ensures r[0] == (Context, JStr("https://schema.org"))
    ensures r[1] == (Type, JStr(SchemaType(p.pageType)))
  {
    [(Context, JStr("https://schema.org")), (Type, JStr(SchemaType(p.pageType)))]
      + SpreadIf(p.pageType == Website, WebsiteMembers(p))
      + SpreadIf(p.pageType == Profile, ProfileMembers(p))
      + SpreadIf(p.pageType == Article, ArticleMembers(p))
  }

  /** A website record holds exactly these keys, none twice. */
  lemma WebsiteKeys(p: ResolvedProps)
    requires p.pageType == Website
    ensures Keys(StructuredData(p)) == [Context, Type, Name, Description, Url, Author]
    ensures DistinctKeys(StructuredData(p))
  {
    var r := StructuredData(p);
    assert r == [(Context, JStr("https://schema.org")), (Type, JStr("WebSite"))] + WebsiteMembers(p);
  }

  /** A website record: 'name' is the title, and the author is a Person
      with the site's url. */
  lemma WebsiteRecord(p: ResolvedProps)
    requires p.pageType == Website
    ensures var r := StructuredData(p);
      && Get(r, Name) == Some(JStr(p.title))
      && Get(r, Description) == Some(JStr(p.description))
      && Get(r, Url) == Some(JStr(p.url))
      && Get(r, Author) == Some(JObj([(Type, JStr("Person")), (Name, JStr(p.author)), (Url, JStr(SiteUrl))]))
  {
    var r := StructuredData(p);
    WebsiteKeys(p);
    assert r == [(Context, JStr("https://schema.org")), (Type, JStr("WebSite"))] + WebsiteMembers(p);
    GetMember(r, 2);
    GetMember(r, 3);
    GetMember(r, 4);
    GetMember(r, 5);
  }

  /** A profile record holds exactly these keys, none twice. */
  lemma ProfileKeys(p: ResolvedProps)
    requires p.pageType == Profile
    ensures Keys(StructuredData(p)) == [Context, Type, Name, Url, Image, SameAs, JobTitle, Description]
    ensures DistinctKeys(StructuredData(p))
  {
    var r := StructuredData(p);
    assert r == [(Context, JStr("https://schema.org")), (Type, JStr("Person"))] + ProfileMembers(p);
  }

  /** A profile record: 'name' is the author, not the title, with the
      GitHub profile under 'sameAs' and a fixed job title. */
  lemma ProfileRecord(p: ResolvedProps)
    requires p.pageType == Profile
    ensures var r := StructuredData(p);
      && Get(r, Name) == Some(JStr(p.author))
      && Get(r, Url) == Some(JStr(p.url))
      && Get(r, SameAs) == Some(JArr([JStr(GitHubProfileUrl)]))
      && Get(r, JobTitle) == Some(JStr("Software Developer"))
      && Get(r, Description) == Some(JStr(p.description))
  {
    var r := StructuredData(p);
    ProfileKeys(p);
    assert r == [(Context, JStr("https://schema.org")), (Type, JStr("Person"))] + ProfileMembers(p);
    GetMember(r, 2);
    GetMember(r, 3);
    GetMember(r, 5);
    GetMember(r, 6);
    GetMember(r, 7);
  }

  /** The fixed keys every article record starts with. */
  function ArticleFixedKeys(): seq<Key> {
    [Context, Type, Headline, Description, Url, Image, Author]
  }

  /** The date keys an article record ends with. */
  function ArticleDateKeys(p: ResolvedProps): seq<Key> {
    (if Truthy(p.publishedDate) then [DatePublished] else [])
      + (if Truthy(p.modifiedDate) then [DateModified] else [])
  }

  lemma ArticleKeyList(p: ResolvedProps)
    requires p.pageType == Article
    ensures Keys(StructuredData(p)) == ArticleFixedKeys() + ArticleDateKeys(p)
  {
    var r := StructuredData(p);
    var base := [(Context, JStr("https://schema.org")), (Type, JStr("Article")),
      (Headline, JStr(p.title)), (Description, JStr(p.description)), (Url, JStr(p.url)),
      (Image, JStr(p.image)), (Author, JObj([(Type, JStr("Person")), (Name, JStr(p.author))]))];
    var pub := if Truthy(p.publishedDate) then [(DatePublished, JStr(p.publishedDate.value))] else [];
    var modified := if Truthy(p.modifiedDate) then [(DateModified, JStr(p.modifiedDate.value))] else [];
    assert r == base + pub + modified;
    KeysAppend(base, pub);
    KeysAppend(base + pub, modified);
    assert Keys(base) == ArticleFixedKeys();
  }

  /** The keys of an article record: 'datePublished' is present exactly
      when the published date is truthy, and 'dateModified' exactly when
      the modified date is. No key appears twice. */
  lemma ArticleKeys(p: ResolvedProps)
    requires p.pageType == Article
    ensures var r := StructuredData(p);
      && Keys(r) == [Context, Type, Headline, Description, Url, Image, Author]
           + (if Truthy(p.publishedDate) then [DatePublished] else [])
           + (if Truthy(p.modifiedDate) then [DateModified] else [])
      && DistinctKeys(r)
  {
    ArticleKeyList(p);
    DistinctKeysOf(StructuredData(p), ArticleFixedKeys(), ArticleDateKeys(p));
  }

  /** Members whose keys are distinct fixed keys followed by distinct date
      keys hold no key twice. */
  lemma DistinctKeysOf(r: seq<(Key, Json)>, ks: seq<Key>, dates: seq<Key>)
    requires Keys(r) == ks + dates
    requires forall i, j :: 0 <= i < j < |ks| ==> ks[i] != ks[j]
    requires forall i, j :: 0 <= i < j < |dates| ==> dates[i] != dates[j]
    requires forall k :: k in dates ==> k == DatePublished || k == DateModified
    requires DatePublished !in ks && DateModified !in ks
    ensures DistinctKeys(r)
  {
    forall i, j | 0 <= i < j < |r| ensures r[i].0 != r[j].0 {
      assert r[i].0 == Keys(r)[i] && r[j].0 == Keys(r)[j];
      if j < |ks| {
      } else if i >= |ks| {
        assert Keys(r)[i] == dates[i - |ks|];
      } else {
        assert Keys(r)[j] == dates[j - |ks|] && Keys(r)[j] in dates;
      }
    }
  }

  /** An article record: the title is the headline, and each date carried
      is the one given. */
  lemma ArticleRecord(p: ResolvedProps)
    requires p.pageType == Article
    ensures var r := StructuredData(p);
      && Get(r, Headline) == Some(JStr(p.title))
      && Get(r, Description) == Some(JStr(p.description))
      && Get(r, Url) == Some(JStr(p.url))
      && (Truthy(p.publishedDate) ==> Get(r, DatePublished) == Some(JStr(p.publishedDate.value)))
      && (Truthy(p.modifiedDate) ==> Get(r, DateModified) == Some(JStr(p.modifiedDate.value)))
  {
    var r := StructuredData(p);
    ArticleKeys(p);
    assert r[..7] == [(Context, JStr("https://schema.org")), (Type, JStr("Article")),
      (Headline, JStr(p.title)), (Description, JStr(p.description)), (Url, JStr(p.url)),
      (Image, JStr(p.image)), (Author, JObj([(Type, JStr("Person")), (Name, JStr(p.author))]))];
    GetMember(r, 2);
    GetMember(r, 3);
    GetMember(r, 4);
    if Truthy(p.publishedDate) {
      assert r[7] == (DatePublished, JStr(p.publishedDate.value));
      GetMember(r, 7);
    }
    if Truthy(p.modifiedDate) {
      assert r[|r| - 1] == (DateModified, JStr(p.modifiedDate.value));
      GetMember(r, |r| - 1);
    }
  }

  /** No type-specific key of one type appears in another type's record,
      and only an article can carry the two dates. */
  lemma {:induction false} NoForeignKeys(p: ResolvedProps)
    ensures var k := Keys(StructuredData(p));
      && (Headline in k <==> p.pageType == Article)
      && (SameAs in k <==> p.pageType == Profile)
      && (JobTitle in k <==> p.pageType == Profile)
      && (Name in k <==> p.pageType != Article)
      && (DatePublished in k <==> p.pageType == Article && Truthy(p.publishedDate))
      && (DateModified in k <==> p.pageType == Article && Truthy(p.modifiedDate))
  {
    match p.pageType
    case Website => WebsiteKeysOnly(p);
    case Profile => ProfileKeysOnly(p);
    case Article => ArticleKeysOnly(p);
  }

  lemma WebsiteKeysOnly(p: ResolvedProps)
    requires p.pageType == Website
    ensures var k := Keys(StructuredData(p));
      Headline !in k && SameAs !in k && JobTitle !in k && Name in k && DatePublished !in k && DateModified !in k
  {
    WebsiteKeys(p);
  }

  lemma ProfileKeysOnly(p: ResolvedProps)
    requires p.pageType == Profile
    ensures var k := Keys(StructuredData(p));
      Headline !in k && SameAs in k && JobTitle in k && Name in k && DatePublished !in k && DateModified !in k
  {
    ProfileKeys(p);
  }

  lemma ArticleKeysOnly(p: ResolvedProps)
    requires p.pageType == Article
    ensures var k := Keys(StructuredData(p));
      && Headline in k && SameAs !in k && JobTitle !in k && Name !in k
      && (DatePublished in k <==> Truthy(p.publishedDate))
      && (DateModified in k <==> Truthy(p.modifiedDate))
  {
    ArticleKeyList(p);
  }

  /** The props App passes for a pathname: title, description, url and
      type; everything else takes its default. */
  function PropsForPath(pathname: string): ResolvedProps {
    var a := SeoPropsFor(pathname);
    ResolveProps(SeoInput(Some(a.title), Some(a.description), Some(a.url), None, Some(a.pageType), None, None, None))
  }

  /** The About page is described as a Person named by the default author,
      and article pages never carry dates, because App passes none. */
  lemma PagesFromApp(pathname: string)
    ensures pathname == "/about" ==>
      StructuredData(PropsForPath(pathname))[1] == (Type, JStr("Person")) &&
      Get(StructuredData(PropsForPath(pathname)), Name) == Some(JStr(DefaultAuthor))
    ensures Get(StructuredData(PropsForPath(pathname)), DatePublished).None?
  {
    var p := PropsForPath(pathname);
    if pathname == "/about" {
      ProfileRecord(p);
    }
    NoForeignKeys(p);
    GetAbsent(StructuredData(p), DatePublished);
  }
}
