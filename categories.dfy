/** MangaTracker's `CategoriesViewModel`: the categories tab, which loads one taxonomy
    (genres, themes or demographics), then a paged list of titles for each of its
    subcategories, keeping a result list and a page counter per subcategory. */
module Categories {
  import opened Common
  import opened Records
  import opened Lists
  import opened Catalog

  datatype CategoriesListError = FetchGenres | FetchThemes | FetchDemographics

  datatype CategoriesSpecificError =
    | FetchMangasByGenreError | FetchMangasByDemographicError | FetchMangasByThemeError
    | CheckForMoreMangasError

  /** The three taxonomies; the view model has one fetch per taxonomy and one per-subcategory
      fetch per taxonomy, identical but for the calls they make and the errors they record. */
  datatype SubKind = ByGenre | ByTheme | ByDemographic

  /** The `category` strings `checkForMoreMangasCat` dispatches on; any other string names
      no taxonomy. */
  function KindNamed(category: string): (r: Option<SubKind>)
    ensures r == Some(ByDemographic) <==> category == "Demographics"
    ensures r == Some(ByTheme) <==> category == "Themes"
    ensures r == Some(ByGenre) <==> category == "Genres"
  {
    if category == "Demographics" then Some(ByDemographic)
    else if category == "Themes" then Some(ByTheme)
    else if category == "Genres" then Some(ByGenre)
    else None
  }

  /** The catalogue call listing the subcategories of a taxonomy. */
  function TaxonomyQuery(kind: SubKind): Query
  {
    match kind
    case ByGenre => Genres
    case ByTheme => Themes
    case ByDemographic => Demographics
  }

  /** The catalogue call for one page of a subcategory. */
  function SubQuery(kind: SubKind, sub: string, page: int): Query
  {
    match kind
    case ByGenre => MangasByGenre(sub, page)
    case ByTheme => MangasByTheme(sub, page)
    case ByDemographic => MangasByDemographic(sub, page)
  }

  function ListError(kind: SubKind): CategoriesListError
  {
    match kind
    case ByGenre => FetchGenres
    case ByTheme => FetchThemes
    case ByDemographic => FetchDemographics
  }

  function SpecificError(kind: SubKind): CategoriesSpecificError
  {
    match kind
    case ByGenre => FetchMangasByGenreError
    case ByTheme => FetchMangasByThemeError
    case ByDemographic => FetchMangasByDemographicError
  }

  /** `pageCategories[sub, default: 1]`. */
  function PageOf(pages: map<string, int>, sub: string): (r: int)
    ensures sub !in pages ==> r == 1
    ensures sub in pages ==> r == pages[sub]
  {
    if sub in pages then pages[sub] else 1
  }

  /** `pageCategories[sub, default: 1] += 1`: only the subcategory's counter moves, by one,
      so the first scroll of a subcategory asks for page 2. */
  function BumpPage(pages: map<string, int>, sub: string): (r: map<string, int>)
    ensures r.Keys == pages.Keys + {sub}
    ensures r[sub] == PageOf(pages, sub) + 1
    ensures sub !in pages ==> r[sub] == 2
    ensures forall k :: k in pages && k != sub ==> r[k] == pages[k]
  {
    pages[sub := PageOf(pages, sub) + 1]
  }

  /** The result step of a per-subcategory fetch: the titles start the subcategory's list,
      or are appended to it; every other subcategory keeps its list. */
  function AppendResult(lists: map<string, seq<Manga>>, sub: string, items: seq<Manga>): (r: map<string, seq<Manga>>)
    ensures r.Keys == lists.Keys + {sub}
    ensures sub in lists ==> r[sub] == lists[sub] + items && r[sub][..|lists[sub]|] == lists[sub]
    ensures sub !in lists ==> r[sub] == items
    ensures forall k :: k in lists && k != sub ==> r[k] == lists[k]
  {
    if sub !in lists then lists[sub := items] else lists[sub := lists[sub] + items]
  }

  /** The requests `fetchMangasForAllSub*` issues for `subs`, in order: one per subcategory,
      each for the subcategory's current page. */
  function SubQueries(kind: SubKind, subs: seq<string>, pages: map<string, int>): (r: seq<Query>)
    ensures |r| == |subs|
    ensures forall i :: 0 <= i < |subs| ==> r[i] == SubQuery(kind, subs[i], PageOf(pages, subs[i]))
  {
    if subs == [] then []
    else SubQueries(kind, subs[..|subs| - 1], pages) + [SubQuery(kind, subs[|subs| - 1], PageOf(pages, subs[|subs| - 1]))]
  }

  class CategoriesViewModel {
    var subCategories: seq<string>
    var currentSubCategory: Option<string>
    var mangasByCategory2: map<string, seq<Manga>>
    var pageCategories: map<string, int>
    var categoryType: string
    var errorMessage: string
    var showAlert: bool
    var theLastManga: Option<Manga>
    var isLoading: bool
    var myError: Option<CategoriesListError>
    var myErrorSpecific: Option<CategoriesSpecificError>
    /** The catalogue calls issued so far, oldest first. */
    var requests: seq<Query>

    /** Every stored page counter has been bumped at least once, so every page asked for is
        positive. */
    predicate Valid()
      reads this
    {
      forall k :: k in pageCategories ==> pageCategories[k] >= 2
    }

    /** `init(interactor:)`. */
    constructor ()
      ensures Valid()
      ensures subCategories == [] && currentSubCategory.None?
      ensures mangasByCategory2 == map[] && pageCategories == map[]
      ensures categoryType == "" && errorMessage == "" && !showAlert && theLastManga.None?
      ensures isLoading && myError.None? && myErrorSpecific.None? && requests == []
    {
      subCategories, currentSubCategory := [], None;
      mangasByCategory2, pageCategories := map[], map[];
      categoryType, errorMessage, showAlert, theLastManga := "", "", false, None;
      isLoading, myError, myErrorSpecific, requests := true, None, None, [];
    }

    /** `checkForMoreMangasCat(manga:subCategory:category:)`: when the subcategory's list has
        scrolled to its end, bumps that subcategory's page and asks for it, provided `category`
        names a taxonomy; nothing happens for a subcategory without a list. */
    method CheckForMoreMangasCat(manga: Manga, subCategory: string, category: string)
      requires Valid()
      modifies this`theLastManga, this`pageCategories, this`requests
      ensures Valid()
      ensures if subCategory in mangasByCategory2 && AtEnd(mangasByCategory2[subCategory], manga) then
          && theLastManga == Some(manga)
          && pageCategories == BumpPage(old(pageCategories), subCategory)
          && requests == old(requests) +
               (match KindNamed(category)
                case Some(kind) => [SubQuery(kind, subCategory, pageCategories[subCategory])]
                case None => [])
        else
          theLastManga == old(theLastManga) && pageCategories == old(pageCategories) &&
          requests == old(requests)
    {
      if subCategory in mangasByCategory2 {
        var mangasInCategory := mangasByCategory2[subCategory];
        if |mangasInCategory| > 0 && mangasInCategory[|mangasInCategory| - 1].id == manga.id {
          theLastManga := Some(manga);
          pageCategories := pageCategories[subCategory := PageOf(pageCategories, subCategory) + 1];
          if category == "Demographics" {
            FetchMangasBy(ByDemographic, subCategory);
          } else if category == "Themes" {
            FetchMangasBy(ByTheme, subCategory);
          } else if category == "Genres" {
            FetchMangasBy(ByGenre, subCategory);
          }
        }
      }
    }

    /** `fetchGenres()`, `fetchThemes()`, `fetchDemographics()`: empty the per-subcategory
        lists (the page counters stay) and ask for the taxonomy. */
    method FetchTaxonomy(kind: SubKind)
      modifies this`mangasByCategory2, this`requests
      ensures mangasByCategory2 == map[]
      ensures requests == old(requests) + [TaxonomyQuery(kind)]
    {
      mangasByCategory2 := map[];
      requests := requests + [TaxonomyQuery(kind)];
    }

    /** The update after a taxonomy call: on success the subcategories are stored and one
        fetch per subcategory is issued; on failure the alert is raised with the taxonomy's
        error. Loading ends either way. */
    method ApplyTaxonomy(kind: SubKind, response: Response<seq<string>>)
      modifies this`subCategories, this`requests, this`showAlert, this`myError, this`isLoading
      ensures !isLoading
      ensures match response
        case Fetched(subs) =>
          subCategories == subs && requests == old(requests) + SubQueries(kind, subs, pageCategories) &&
          showAlert == old(showAlert) && myError == old(myError)
        case Failed(_) =>
          subCategories == old(subCategories) && requests == old(requests) &&
          showAlert && myError == Some(ListError(kind))
    {
      match response {
        case Fetched(subs) =>
          subCategories := subs;
          FetchMangasForAllSubs(kind);
        case Failed(_) =>
          showAlert, myError := true, Some(ListError(kind));
      }
      isLoading := false;
    }

    /** `fetchMangasForAllSubGenres()` and its theme and demographic twins: one
        per-subcategory fetch for each subcategory, in order. */
    method FetchMangasForAllSubs(kind: SubKind)
      modifies this`requests
      ensures requests == old(requests) + SubQueries(kind, subCategories, pageCategories)
    {
      var i := 0;
      while i < |subCategories|
        invariant 0 <= i <= |subCategories|
        invariant requests == old(requests) + SubQueries(kind, subCategories[..i], pageCategories)
      {
        assert subCategories[..i + 1][..i] == subCategories[..i];
        FetchMangasBy(kind, subCategories[i]);
        i := i + 1;
      }
      assert subCategories[..i] == subCategories;
    }

    /** `fetchMangasByGenre(genre:)` and its twins: ask for the subcategory's current page
        (1 when it has none yet). */
    method FetchMangasBy(kind: SubKind, sub: string)
      modifies this`requests
      ensures requests == old(requests) + [SubQuery(kind, sub, PageOf(pageCategories, sub))]
    {
      var page := if sub in pageCategories then pageCategories[sub] else 1;
      requests := requests + [SubQuery(kind, sub, page)];
    }

    /** The update after a per-subcategory call. */
    method ApplyMangasBy(kind: SubKind, sub: string, response: Response<seq<Manga>>)
      modifies this`mangasByCategory2, this`errorMessage, this`showAlert, this`myErrorSpecific
      ensures match response
        case Fetched(items) =>
          mangasByCategory2 == AppendResult(old(mangasByCategory2), sub, items) &&
          errorMessage == old(errorMessage) && showAlert == old(showAlert) &&
          myErrorSpecific == old(myErrorSpecific)
        case Failed(_) =>
          mangasByCategory2 == old(mangasByCategory2) &&
          errorMessage == "We could not load mangas from " + sub && showAlert &&
          myErrorSpecific == Some(SpecificError(kind))
    {
      match response
      case Fetched(items) =>
        if sub !in mangasByCategory2 {
          mangasByCategory2 := mangasByCategory2[sub := items];
        } else {
          mangasByCategory2 := mangasByCategory2[sub := mangasByCategory2[sub] + items];
        }
      case Failed(_) =>
        errorMessage, showAlert := "We could not load mangas from " + sub, true;
        myErrorSpecific := Some(SpecificError(kind));
    }
  }
}
