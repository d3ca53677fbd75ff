/** MangaHub's `MangaListViewModel`: the paged catalogue list, which shows all titles, the
    best-rated titles or the results of a title search, plus the paged list of an author's
    titles. Each fetch is split into the call issued (logged in `requests`) and the
    main-actor update that runs once it returns. */
module HubList {
  import opened Common
  import opened Records
  import opened Lists
  import opened Catalog

  datatype ListError = AllMangasError | BestMangasError

  /** The three fetch kinds a scroll to the end of the list can trigger. */
  datatype ScrollFetch = AllFetch | SearchFetch | BestFetch

  /** `isLastItem`'s dispatch on the mode flags: exactly one kind runs; an active search wins
      over the best-titles mode. */
  function ScrollFetchFor(isSearched: bool, isBestMangaSelected: bool): (r: ScrollFetch)
    ensures r == SearchFetch <==> isSearched
    ensures r == AllFetch <==> !isSearched && !isBestMangaSelected
    ensures r == BestFetch <==> !isSearched && isBestMangaSelected
  {
    if !isSearched && !isBestMangaSelected then AllFetch
    else if (isSearched && !isBestMangaSelected) || (isSearched && isBestMangaSelected) then SearchFetch
    else BestFetch
  }

  class MangaListViewModel {
    var mangas: seq<Manga>
    var errorMessage: string
    var showAlert: bool
    var page: int
    var mangasPerPage: int
    var successSearch: bool
    var searchedText: string
    var isSearched: bool
    var isBestMangaSelected: bool
    var isList: bool
    var mangasByAuthor: seq<Manga>
    var pageAuthor: int
    var myError: Option<ListError>
    /** The catalogue calls issued so far, oldest first. */
    var requests: seq<Query>

    /** Pages start at 1 and only grow between resets; ten titles per page. */
    predicate Valid()
      reads this
    {
      page >= 1 && pageAuthor >= 1 && mangasPerPage == 10
    }

    /** `init(interactor:)`: asks for the first page of all titles. */
    constructor ()
      ensures Valid()
      ensures requests == [AllMangas(1, 10)]
      ensures mangas == [] && mangasByAuthor == [] && errorMessage == "" && !showAlert
      ensures page == 1 && pageAuthor == 1 && successSearch && searchedText == ""
      ensures !isSearched && !isBestMangaSelected && isList && myError.None?
    {
      mangas, errorMessage, showAlert, page, mangasPerPage := [], "", false, 1, 10;
      successSearch, searchedText, isSearched, isBestMangaSelected, isList := true, "", false, false, true;
      mangasByAuthor, pageAuthor, myError, requests := [], 1, None, [];
      new;
      FetchAllMangas();
    }

    /** `fetchAllMangas()`: asks for the current page of all titles. */
    method FetchAllMangas()
      modifies this`requests
      ensures requests == old(requests) + [AllMangas(page, mangasPerPage)]
    {
      requests := requests + [AllMangas(page, mangasPerPage)];
    }

    /** The update after an all-titles call: the titles are appended. */
    method ApplyAllMangas(response: Response<seq<Manga>>)
      modifies this`mangas, this`errorMessage, this`showAlert, this`myError
      ensures match response
        case Fetched(items) =>
          mangas == old(mangas) + items && errorMessage == old(errorMessage) &&
          showAlert == old(showAlert) && myError == old(myError)
        case Failed(_) =>
          mangas == old(mangas) && errorMessage == "No Mangas" && showAlert &&
          myError == Some(AllMangasError)
    {
      match response
      case Fetched(items) =>
        mangas := mangas + items;
      case Failed(_) =>
        errorMessage, showAlert, myError := "No Mangas", true, Some(AllMangasError);
    }

    /** `fetchBestMangas()`: asks for the current page of the best-rated titles. */
    method FetchBestMangas()
      modifies this`requests
      ensures requests == old(requests) + [BestMangas(page, mangasPerPage)]
    {
      requests := requests + [BestMangas(page, mangasPerPage)];
    }

    /** The update after a best-titles call: the titles are appended. */
    method ApplyBestMangas(response: Response<seq<Manga>>)
      modifies this`mangas, this`errorMessage, this`showAlert, this`myError
      ensures match response
        case Fetched(items) =>
          mangas == old(mangas) + items && errorMessage == old(errorMessage) &&
          showAlert == old(showAlert) && myError == old(myError)
        case Failed(_) =>
          mangas == old(mangas) && errorMessage == "No Best Mangas" && showAlert &&
          myError == Some(BestMangasError)
    {
      match response
      case Fetched(items) =>
        mangas := mangas + items;
      case Failed(_) =>
        errorMessage, showAlert, myError := "No Best Mangas", true, Some(BestMangasError);
    }

    /** `isLastItem(manga:)`: at the end of the list, the page moves on by one and exactly
        one fetch kind asks for it. */
    method IsLastItem(manga: Manga)
      requires Valid()
      modifies this`page, this`requests
      ensures Valid()
      ensures if AtEnd(mangas, manga) then
          && page == old(page) + 1
          && requests == old(requests) +
               [match ScrollFetchFor(isSearched, isBestMangaSelected)
                case AllFetch => AllMangas(page, 10)
                case SearchFetch => SearchContains(searchedText, page)
                case BestFetch => BestMangas(page, 10)]
        else
          page == old(page) && requests == old(requests)
    {
      if |mangas| > 0 && mangas[|mangas| - 1].id == manga.id {
        page := page + 1;
        if !isSearched && !isBestMangaSelected {
          FetchAllMangas();
        } else if (isSearched && !isBestMangaSelected) || (isSearched && isBestMangaSelected) {
          requests := requests + [SearchContains(searchedText, page)];
        } else if !isSearched && isBestMangaSelected {
          FetchBestMangas();
        }
      }
    }

    /** The update after a next-page search call: the titles are appended. */
    method ApplyScrollSearch(response: Response<seq<Manga>>)
      modifies this`mangas, this`errorMessage, this`showAlert
      ensures match response
        case Fetched(items) =>
          mangas == old(mangas) + items && errorMessage == old(errorMessage) && showAlert == old(showAlert)
        case Failed(_) =>
          mangas == old(mangas) && errorMessage == "Scroll Error" && showAlert
    {
      match response
      case Fetched(items) =>
        mangas := mangas + items;
      case Failed(_) =>
        errorMessage, showAlert := "Scroll Error", true;
    }

    /** `search(text:)`: asks for the current page of titles containing `text`. */
    method Search(text: string)
      modifies this`requests
      ensures requests == old(requests) + [SearchContains(text, page)]
    {
      requests := requests + [SearchContains(text, page)];
    }

    /** The update after a search call: the results replace the list and an empty result
        toggles `successSearch`; a failure only raises the alert. */
    method ApplySearch(response: Response<seq<Manga>>)
      modifies this`mangas, this`successSearch, this`errorMessage, this`showAlert
      ensures match response
        case Fetched(items) =>
          mangas == items && successSearch == (if items == [] then !old(successSearch) else old(successSearch)) &&
          errorMessage == old(errorMessage) && showAlert == old(showAlert)
        case Failed(_) =>
          mangas == old(mangas) && successSearch == old(successSearch) &&
          errorMessage == "No Found" && showAlert
    {
      match response
      case Fetched(items) =>
        mangas := items;
        if mangas == [] {
          successSearch := !successSearch;
        }
      case Failed(_) =>
        errorMessage, showAlert := "No Found", true;
    }

    /** `onChangeText()`: an empty search text returns to all titles (leaving the
        best-titles mode too), any other text starts a search from page 1 and leaves the
        best-titles flag alone; both empty the list first. */
    method OnChangeText()
      requires Valid()
      modifies this`successSearch, this`mangas, this`isSearched, this`isBestMangaSelected, this`page, this`requests
      ensures Valid()
      ensures successSearch && mangas == [] && page == 1
      ensures isSearched == (searchedText != "")
      ensures isBestMangaSelected == (searchedText != "" && old(isBestMangaSelected))
      ensures requests == old(requests) +
                [if searchedText == "" then AllMangas(1, 10) else SearchContains(searchedText, 1)]
    {
      successSearch := true;
      if searchedText == "" {
        mangas := [];
        isSearched := false;
        isBestMangaSelected := false;
        page := 1;
        FetchAllMangas();
      } else {
        mangas := [];
        isSearched := true;
        page := 1;
        Search(searchedText);
      }
    }

    /** `showBestMangas()`: switches to the best titles from page 1; an active search flag
        stays as it was. */
    method ShowBestMangas()
      requires Valid()
      modifies this`mangas, this`page, this`isBestMangaSelected, this`requests
      ensures Valid()
      ensures mangas == [] && page == 1 && isBestMangaSelected
      ensures requests == old(requests) + [BestMangas(1, 10)]
    {
      mangas := [];
      page := 1;
      isBestMangaSelected := true;
      FetchBestMangas();
    }

    /** `resetAllMangas()`: back to all titles from page 1, with both mode flags off. */
    method ResetAllMangas()
      requires Valid()
      modifies this`mangas, this`page, this`isSearched, this`isBestMangaSelected, this`requests
      ensures Valid()
      ensures mangas == [] && page == 1 && !isSearched && !isBestMangaSelected
      ensures requests == old(requests) + [AllMangas(1, 10)]
    {
      mangas := [];
      page := 1;
      isSearched := false;
      isBestMangaSelected := false;
      FetchAllMangas();
    }

    /** `fetchMangasByAuthor(idAuthor:)`: asks for the current author page. */
    method FetchMangasByAuthor(idAuthor: string)
      modifies this`requests
      ensures requests == old(requests) + [MangasByAuthor(idAuthor, pageAuthor, mangasPerPage)]
    {
      requests := requests + [MangasByAuthor(idAuthor, pageAuthor, mangasPerPage)];
    }

    /** The update after an author call: the titles are appended to `mangasByAuthor`. */
    method ApplyMangasByAuthor(response: Response<seq<Manga>>)
      modifies this`mangasByAuthor, this`errorMessage, this`showAlert
      ensures match response
        case Fetched(items) =>
          mangasByAuthor == old(mangasByAuthor) + items && errorMessage == old(errorMessage) &&
          showAlert == old(showAlert)
        case Failed(_) =>
          mangasByAuthor == old(mangasByAuthor) && errorMessage == "Error loading mangas by author" && showAlert
    {
      match response
      case Fetched(items) =>
        mangasByAuthor := mangasByAuthor + items;
      case Failed(_) =>
        errorMessage, showAlert := "Error loading mangas by author", true;
    }

    /** `isLastItemAuthor(manga:idAuthor:)`: at the end of the author list, the author page
        moves on by one and is asked for. */
    method IsLastItemAuthor(manga: Manga, idAuthor: string)
      requires Valid()
      modifies this`pageAuthor, this`requests
      ensures Valid()
      ensures if AtEnd(mangasByAuthor, manga) then
          pageAuthor == old(pageAuthor) + 1 &&
          requests == old(requests) + [MangasByAuthor(idAuthor, pageAuthor, 10)]
        else
          pageAuthor == old(pageAuthor) && requests == old(requests)
    {
      if |mangasByAuthor| > 0 && mangasByAuthor[|mangasByAuthor| - 1].id == manga.id {
        pageAuthor := pageAuthor + 1;
        FetchMangasByAuthor(idAuthor);
      }
    }
  }
}
