/** The article catalog of the Articles page (src/components/Articles.tsx):
    one record per article file whose fetch succeeds, with front-matter
    defaults, then sorted newest first. */
module ArticleCatalog {
  import opened Wrappers
  import opened JsText
  import opened Seqs

  /** The front matter as parsed; a field that is missing or falsy is
      None or "". `date` is the timestamp of a date that parses, None
      for a missing, empty or unparseable one. */
  datatype FrontMatter = FrontMatter(
    title: Option<string>,
    synopsis: Option<string>,
    date: Option<int>,
    author: Option<string>)

  /** What `fetch('/content/' + file)` gives: an ok response whose text
      yields front matter, a non-ok response, or a thrown error. */
  datatype ArticleFetch = Fetched(frontMatter: FrontMatter) | NotFound | FetchThrew

  datatype ArticleRecord = ArticleRecord(
    slug: string,
    title: string,
    synopsis: string,
    date: Option<int>,
    author: string)

  /** Lines 30-36: the record pushed for a fetched file. */
  function MakeRecord(file: string, fm: FrontMatter): ArticleRecord
  {
    ArticleRecord(
      ReplaceFirst(file, ".md", ""),
      OrElse(fm.title, "Untitled"),
      OrElse(fm.synopsis, ""),
      fm.date,
      OrElse(fm.author, "Anonymous"))
  }

  /** The record of one fetched file: the slug drops the first '.md', and
      falsy front-matter fields take their defaults. */
  lemma RecordDefaults(file: string, fm: FrontMatter)
    ensures (forall j :: 0 <= j <= |file| ==> !OccursAt(file, ".md", j)) ==> MakeRecord(file, fm).slug == file
    ensures EndsWith(file, ".md") && (forall j :: 0 <= j < |file| - 3 ==> !OccursAt(file, ".md", j))
      ==> MakeRecord(file, fm).slug == file[..|file| - 3]
    ensures Truthy(fm.title) ==> MakeRecord(file, fm).title == fm.title.value
    ensures !Truthy(fm.title) ==> MakeRecord(file, fm).title == "Untitled"
    ensures Truthy(fm.synopsis) ==> MakeRecord(file, fm).synopsis == fm.synopsis.value
    ensures !Truthy(fm.synopsis) ==> MakeRecord(file, fm).synopsis == ""
    ensures Truthy(fm.author) ==> MakeRecord(file, fm).author == fm.author.value
    ensures !Truthy(fm.author) ==> MakeRecord(file, fm).author == "Anonymous"
    ensures MakeRecord(file, fm).date == fm.date
  {
    if EndsWith(file, ".md") && (forall j :: 0 <= j < |file| - 3 ==> !OccursAt(file, ".md", j)) {
      var k := |file| - 3;
      assert OccursAt(file, ".md", k);
      assert ReplaceFirst(file, ".md", "") == file[..k] + "" + file[k + 3..];
      assert file[k + 3..] == [];
    }
  }

  /** The records one file contributes: one when its fetch succeeds, none
      when the response is not ok or the fetch throws. */
  function RecordsOf(file: string, fetch: ArticleFetch): seq<ArticleRecord> {
    match fetch
    case Fetched(fm) => [MakeRecord(file, fm)]
    case NotFound => []
    case FetchThrew => []
  }

  /** The records of `files`, in file order. */
  function Records(files: seq<string>, fetchOf: string -> ArticleFetch): (r: seq<ArticleRecord>)
    ensures |r| <= |files|
  {
    if files == [] then []
    else
      var init := files[..|files| - 1];
      var last := files[|files| - 1];
      Records(init, fetchOf) + RecordsOf(last, fetchOf(last))
  }

  /** When every fetch succeeds there is one record per file. */
  lemma {:induction false} AllFetchedAllRecorded(files: seq<string>, fetchOf: string -> ArticleFetch)
    requires forall f :: f in files ==> fetchOf(f).Fetched?
    ensures |Records(files, fetchOf)| == |files|
  {
    if files != [] {
      var init := files[..|files| - 1];
      assert forall f :: f in init ==> f in files;
      AllFetchedAllRecorded(init, fetchOf);
      assert fetchOf(files[|files| - 1]).Fetched?;
    }
  }

  /** Every record comes from a file whose fetch succeeded. */
  lemma {:induction false} RecordsFromFetchedFiles(files: seq<string>, fetchOf: string -> ArticleFetch)
    ensures forall rec :: rec in Records(files, fetchOf) ==>
      exists f :: f in files && fetchOf(f).Fetched? && rec == MakeRecord(f, fetchOf(f).frontMatter)
  {
    if files != [] {
      var init := files[..|files| - 1];
      var last := files[|files| - 1];
      RecordsFromFetchedFiles(init, fetchOf);
      forall rec | rec in Records(files, fetchOf)
        ensures exists f :: f in files && fetchOf(f).Fetched? && rec == MakeRecord(f, fetchOf(f).frontMatter)
      {
        if rec in Records(init, fetchOf) {
          var f :| f in init && fetchOf(f).Fetched? && rec == MakeRecord(f, fetchOf(f).frontMatter);
          assert f in files;
        } else {
          assert rec in RecordsOf(last, fetchOf(last));
          assert last in files;
        }
      }
    }
  }

  /** One more file appends its own records. */
  lemma RecordsSnoc(files: seq<string>, fetchOf: string -> ArticleFetch, i: nat)
    requires i < |files|
    ensures fetchOf(files[i]).Fetched? ==>
      Records(files[..i + 1], fetchOf) == Records(files[..i], fetchOf) + [MakeRecord(files[i], fetchOf(files[i]).frontMatter)]
    ensures !fetchOf(files[i]).Fetched? ==> Records(files[..i + 1], fetchOf) == Records(files[..i], fetchOf)
  {
    assert files[..i + 1][..i] == files[..i];
  }

  /** Every file whose fetch succeeds contributes its record; a failed
      fetch before or after it does not stop it. */
  lemma {:induction false} FetchedFileRecorded(files: seq<string>, fetchOf: string -> ArticleFetch, i: nat)
    requires i < |files| && fetchOf(files[i]).Fetched?
    ensures MakeRecord(files[i], fetchOf(files[i]).frontMatter) in Records(files, fetchOf)
  {
    var init := files[..|files| - 1];
    if i < |files| - 1 {
      assert init[i] == files[i];
      FetchedFileRecorded(init, fetchOf, i);
    }
  }

  function DateKey(a: ArticleRecord): int {
    if a.date.Some? then a.date.value else 0
  }

  /** Line 44: the comparator `date(b) - date(a)` sorts newest first. It is
      NaN when a record has no parseable date, and the engine's order is
      then unspecified; the promise below is only a permutation in that
      case. */
  function SortByDate(records: seq<ArticleRecord>): (r: seq<ArticleRecord>)
    ensures multiset(r) == multiset(records)
    ensures (forall a :: a in records ==> a.date.Some?) ==>
      (forall a :: a in r ==> a.date.Some?) && SortedDesc(r, DateKey)
  {
    var sorted := SortDesc(records, DateKey);
    forall a | a in sorted ensures a in records {
      assert a in multiset(sorted);
    }
    sorted
  }

  /** Records with the same date keep their file order. */
  lemma SortByDateStable(records: seq<ArticleRecord>, t: int)
    requires forall a :: a in records ==> a.date.Some?
    ensures WithKey(SortByDate(records), DateKey, t) == WithKey(records, DateKey, t)
  {
    SortDescStable(records, DateKey, t);
  }

  /** The component's `articles` and `loading` state. */
  class ArticleCatalogState {
    var articles: seq<ArticleRecord>
    var loading: bool

    /** Lines 15-16. */
    constructor ()
      ensures articles == [] && loading
    {
      articles := [];
      loading := true;
    }

    /** Lines 21-41: `loadedArticles` grown with `push` in a `for` loop. */
    static method CollectRecords(files: seq<string>, fetchOf: string -> ArticleFetch)
      returns (loaded: seq<ArticleRecord>)
      ensures loaded == Records(files, fetchOf)
    {
      loaded := [];
      var i := 0;
      while i < |files|
        invariant 0 <= i <= |files|
        invariant loaded == Records(files[..i], fetchOf)
      {
        var file := files[i];
        RecordsSnoc(files, fetchOf, i);
        if fetchOf(file).Fetched? {
          loaded := loaded + [MakeRecord(file, fetchOf(file).frontMatter)];
        }
        i := i + 1;
      }
      assert files[..i] == files;
    }

    /** Lines 19-51: collect, sort newest first, store, and clear `loading`
        in the `finally` block. */
    method Load(files: seq<string>, fetchOf: string -> ArticleFetch)
      modifies this
      ensures articles == SortByDate(Records(files, fetchOf))
      ensures !loading
    {
      var loaded := CollectRecords(files, fetchOf);
      articles := SortByDate(loaded);
      loading := false;
    }
  }
}
