/** MangaTracker's `MangaCategoriesViewModel`: the older categories screen, with a single
    result list and a single page counter shared by whichever subcategory is shown. */
module MangaCategories {
  import opened Common
  import opened Records
  import opened Lists
  import opened Catalog
  import Categories

  datatype ListError = FetchGenres | FetchThemes | FetchDemographics

  datatype SpecificError = FetchMangasByGenre | FetchMangasByDemographic | FetchMangasByTheme

  function TaxonomyError(kind: Categories.SubKind): ListError
  {
    match kind
    case ByGenre => FetchGenres
    case ByTheme => FetchThemes
    case ByDemographic => FetchDemographics
  }

  /** The message of a failed taxonomy call: MangaHub's `NetworkError.genresError`,
      `.themesErrors` and `.demographicsError` descriptions. */
  function TaxonomyMessage(kind: Categories.SubKind): string
  {
    match kind
    case ByGenre => "No Genres Found"
    case ByTheme => "No Themes Found"
    case ByDemographic => "No Demographics Found"
  }

  function ResultError(kind: Categories.SubKind): SpecificError
  {
    match kind
    case ByGenre => FetchMangasByGenre
    case ByTheme => FetchMangasByTheme
    case ByDemographic => FetchMangasByDemographic
  }

  /** The message of a failed per-category call. */
  function ResultMessage(kind: Categories.SubKind): string
  {
    match kind
    case ByGenre => "No Mangas By Genre Found"
    case ByTheme => "No Mangas By Themes Found"
    case ByDemographic => "No Mangas By Demographics Found"
  }

  /** What `categoryTypeSelected(category:)` asks for: a page of `category` in the taxonomy
      named by the stored category type, or nothing when it names none. */
  function Dispatch(categoryType: string, category: string, page: int): (r: seq<Query>)
    ensures |r| <= 1
    ensures r == [] <==> Categories.KindNamed(categoryType).None?
  {
    match Categories.KindNamed(categoryType)
    case Some(kind) => [Categories.SubQuery(kind, category, page)]
    case None => []
  }

  class MangaCategoriesViewModel {
    var categories: seq<string>
    var mangasByCategory: seq<Manga>
    var categoryType: string
    var errorMessage: string
    var showAlert: bool
    var pageCategories: int
    var mangasPerPage: int
    var myError: Option<ListError>
    var myErrorSpecific: Option<SpecificError>
    /** The catalogue calls issued so far, oldest first. */
    var requests: seq<Query>

    /** The shared page counter starts at 1 and only grows. */
    predicate Valid()
      reads this
    {
      pageCategories >= 1 && mangasPerPage == 10
    }

    /** `init(interactor:)`. */
    constructor ()
      ensures Valid()
      ensures categories == [] && mangasByCategory == [] && categoryType == ""
      ensures errorMessage == "" && !showAlert && pageCategories == 1
      ensures myError.None? && myErrorSpecific.None? && requests == []
    {
      categories, mangasByCategory, categoryType := [], [], "";
      errorMessage, showAlert, pageCategories, mangasPerPage := "", false, 1, 10;
      myError, myErrorSpecific, requests := None, None, [];
    }

    /** `categoryTypeSelected(category:)`: dispatches on the stored `categoryType`, not on
        its argument, and asks for the current shared page. */
    method CategoryTypeSelected(category: string)
      modifies this`requests
      ensures requests == old(requests) + Dispatch(categoryType, category, pageCategories)
    {
      match categoryType {
        case "Genres" =>
          requests := requests + [MangasByGenre(category, pageCategories)];
        case "Demographics" =>
          requests := requests + [MangasByDemographic(category, pageCategories)];
        case "Themes" =>
          requests := requests + [MangasByTheme(category, pageCategories)];
        case _ =>
      }
    }

    /** `categorySelected(category:)`. */
    method CategorySelected(category: string)
      modifies this`requests
      ensures requests == old(requests) + Dispatch(categoryType, category, pageCategories)
    {
      CategoryTypeSelected(category);
    }

    /** `isLastItemCategories(manga:category:)`: at the end of the list, the shared page
        moves on by one and the category is fetched again. */
    method IsLastItemCategories(manga: Manga, category: string)
      requires Valid()
      modifies this`pageCategories, this`requests
      ensures Valid()
      ensures if AtEnd(mangasByCategory, manga) then
          pageCategories == old(pageCategories) + 1 &&
          requests == old(requests) + Dispatch(categoryType, category, pageCategories)
        else
          pageCategories == old(pageCategories) && requests == old(requests)
    {
      if |mangasByCategory| > 0 && mangasByCategory[|mangasByCategory| - 1].id == manga.id {
        pageCategories := pageCategories + 1;
        CategorySelected(category);
      }
    }

    /** `fetchGenres()`, `fetchDemographics()`, `fetchThemes()`: empty the result list (the
        shared page stays) and ask for the taxonomy. */
    method FetchTaxonomy(kind: Categories.SubKind)
      modifies this`mangasByCategory, this`requests
      ensures mangasByCategory == []
      ensures requests == old(requests) + [Categories.TaxonomyQuery(kind)]
    {
      mangasByCategory := [];
      requests := requests + [Categories.TaxonomyQuery(kind)];
    }

    /** The update after a taxonomy call. */
    method ApplyTaxonomy(kind: Categories.SubKind, response: Response<seq<string>>)
      modifies this`categories, this`errorMessage, this`showAlert, this`myError
      ensures match response
        case Fetched(subs) =>
          categories == subs && errorMessage == old(errorMessage) &&
          showAlert == old(showAlert) && myError == old(myError)
        case Failed(_) =>
          categories == old(categories) && errorMessage == TaxonomyMessage(kind) &&
          showAlert && myError == Some(TaxonomyError(kind))
    {
      match response
      case Fetched(subs) =>
        categories := subs;
      case Failed(_) =>
        errorMessage, showAlert, myError := TaxonomyMessage(kind), true, Some(TaxonomyError(kind));
    }

    /** The update after a per-category call: the titles are appended to the shared list. */
    method ApplyMangasBy(kind: Categories.SubKind, response: Response<seq<Manga>>)
      modifies this`mangasByCategory, this`errorMessage, this`showAlert, this`myErrorSpecific
      ensures match response
        case Fetched(items) =>
          mangasByCategory == old(mangasByCategory) + items &&
          errorMessage == old(errorMessage) && showAlert == old(showAlert) &&
          myErrorSpecific == old(myErrorSpecific)
        case Failed(_) =>
          mangasByCategory == old(mangasByCategory) && errorMessage == ResultMessage(kind) &&
          showAlert && myErrorSpecific == Some(ResultError(kind))
    {
      match response
      case Fetched(items) =>
        mangasByCategory := mangasByCategory + items;
      case Failed(_) =>
        errorMessage, showAlert, myErrorSpecific := ResultMessage(kind), true, Some(ResultError(kind));
    }
  }
}
