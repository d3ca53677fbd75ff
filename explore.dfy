/** MangaTracker's `ExploreViewModel`: the explore tab with the random carousel, the top 10,
    the title search with its paging, and the paged list of an author's titles. Each fetch
    is split in two: the call issued on the main thread (logged in `requests`, with the page
    it asks for) and the main-actor update that runs once the call returns. */
module Explore {
  import opened Common
  import opened Records
  import opened Lists
  import opened Catalog

  datatype ExploreViewError = CarrouselMangasError | BestMangasError | CheckForMoreMangasError | SearchError

  /** The highest page the carousel's random page is drawn from (`Int.random(in: 1...6473)`). */
  const RandomPages: int := 6473

  /** The requests this view model can issue: the carousel always asks for its one random
      page, the top 10 for the first page, searches and author lists for a positive page, all
      ten titles per page. */
  predicate Issuable(q: Query, randomPage: int)
  {
    match q
    case AllMangas(p, n) => p == randomPage && n == 10
    case BestMangas(p, n) => p == 1 && n == 10
    case SearchContains(_, p) => p >= 1
    case MangasByAuthor(_, p, n) => p >= 1 && n == 10
    case _ => false
  }

  class ExploreViewModel {
    var mangas: seq<Manga>
    var errorMessage: string
    var showAlert: bool
    var theLastManga: Option<Manga>
    var mangasByAuthor: seq<Manga>
    var bestMangasArray: seq<Manga>
    var myError: Option<ExploreViewError>
    var page: int
    var randomPageAllMangas: int
    var pageTopMangas: int
    var mangasPerPage: int
    var pageAuthor: int
    var successSearch: bool
    var searchedText: string
    var isSearched: bool
    var listNeeded: bool
    /** The catalogue calls issued so far, oldest first. */
    var requests: seq<Query>

    /** Pages start at 1 and only grow, the page sizes are fixed, and every issued request is
        one this view model can form. */
    predicate Valid()
      reads this
    {
      && 1 <= page && 1 <= pageAuthor
      && 1 <= randomPageAllMangas <= RandomPages
      && pageTopMangas == 1 && mangasPerPage == 10
      && forall i :: 0 <= i < |requests| ==> Issuable(requests[i], randomPageAllMangas)
    }

    /** `init(interactor:)`, with the random carousel page passed in: issues the carousel
        and the top 10 requests. */
    constructor (randomPage: int)
      requires 1 <= randomPage <= RandomPages
      ensures Valid()
      ensures randomPageAllMangas == randomPage
      ensures requests == [AllMangas(randomPage, 10), BestMangas(1, 10)]
      ensures mangas == [] && mangasByAuthor == [] && bestMangasArray == []
      ensures errorMessage == "" && !showAlert && theLastManga.None? && myError.None?
      ensures page == 1 && pageAuthor == 1
      ensures successSearch && searchedText == "" && !isSearched && !listNeeded
    {
      mangas, mangasByAuthor, bestMangasArray := [], [], [];
      errorMessage, showAlert, theLastManga, myError := "", false, None, None;
      page, randomPageAllMangas, pageTopMangas, mangasPerPage, pageAuthor := 1, randomPage, 1, 10, 1;
      successSearch, searchedText, isSearched, listNeeded := true, "", false, false;
      requests := [];
      new;
      FetchAllMangas();
      FetchBestMangas();
    }

    /** `fetchAllMangas()`: asks for the carousel's random page. */
    method FetchAllMangas()
      requires Valid()
      modifies this`requests
      ensures Valid()
      ensures requests == old(requests) + [AllMangas(randomPageAllMangas, mangasPerPage)]
    {
      requests := requests + [AllMangas(randomPageAllMangas, mangasPerPage)];
    }

    /** The update after the carousel call: the titles are appended to `mangas`. */
    method ApplyAllMangas(response: Response<seq<Manga>>)
      modifies this`mangas, this`showAlert, this`myError, this`errorMessage
      ensures match response
        case Fetched(items) =>
          mangas == old(mangas) + items && showAlert == old(showAlert) &&
          myError == old(myError) && errorMessage == old(errorMessage)
        case Failed(NetworkError(d)) =>
          mangas == old(mangas) && showAlert && myError == Some(CarrouselMangasError) &&
          errorMessage == "It was not possible to load the carrousel section:  " + d
        case Failed(OtherError) =>
          mangas == old(mangas) && showAlert && myError == old(myError) &&
          errorMessage == "Error loading the explore section, check your internet connection"
    {
      match response
      case Fetched(items) =>
        mangas := mangas + items;
      case Failed(NetworkError(d)) =>
        showAlert, myError := true, Some(CarrouselMangasError);
        errorMessage := "It was not possible to load the carrousel section:  " + d;
      case Failed(OtherError) =>
        showAlert := true;
        errorMessage := "Error loading the explore section, check your internet connection";
    }

    /** `fetchBestMangas()`: asks for the first page of the best-rated titles. */
    method FetchBestMangas()
      requires Valid()
      modifies this`requests
      ensures Valid()
      ensures requests == old(requests) + [BestMangas(pageTopMangas, mangasPerPage)]
    {
      requests := requests + [BestMangas(pageTopMangas, mangasPerPage)];
    }

    /** The update after the top 10 call: the titles are appended to `bestMangasArray`. */
    method ApplyBestMangas(response: Response<seq<Manga>>)
      modifies this`bestMangasArray, this`showAlert, this`myError, this`errorMessage
      ensures match response
        case Fetched(items) =>
          bestMangasArray == old(bestMangasArray) + items && showAlert == old(showAlert) &&
          myError == old(myError) && errorMessage == old(errorMessage)
        case Failed(NetworkError(d)) =>
          bestMangasArray == old(bestMangasArray) && showAlert && myError == Some(BestMangasError) &&
          errorMessage == "It was not possible to load the top 10 Mangas section:  " + d
        case Failed(OtherError) =>
          bestMangasArray == old(bestMangasArray) && showAlert && myError == old(myError) &&
          errorMessage == "Error loading the explore section, check your internet connection"
    {
      match response
      case Fetched(items) =>
        bestMangasArray := bestMangasArray + items;
      case Failed(NetworkError(d)) =>
        showAlert, myError := true, Some(BestMangasError);
        errorMessage := "It was not possible to load the top 10 Mangas section:  " + d;
      case Failed(OtherError) =>
        showAlert := true;
        errorMessage := "Error loading the explore section, check your internet connection";
    }

    /** `checkForMoreMangas(lastManga:)`: when the list has scrolled to its end, advances the
        page and asks for more: the carousel call again when no search is active (it asks for
        the same random page, whatever `page` is), otherwise the next page of the search. */
    method CheckForMoreMangas(lastManga: Manga)
      requires Valid()
      modifies this`theLastManga, this`page, this`requests
      ensures Valid()
      ensures if AtEnd(mangas, lastManga) then
          && theLastManga == Some(lastManga) && page == old(page) + 1
          && requests == old(requests) +
               [if isSearched then SearchContains(searchedText, page)
                else AllMangas(randomPageAllMangas, 10)]
        else
          theLastManga == old(theLastManga) && page == old(page) && requests == old(requests)
    {
      if |mangas| > 0 && mangas[|mangas| - 1].id == lastManga.id {
        theLastManga := Some(lastManga);
        page := page + 1;
        if !isSearched {
          FetchAllMangas();
        } else {
          requests := requests + [SearchContains(searchedText, page)];
        }
      }
    }

    /** The update after a next-page search call: the titles are appended. */
    method ApplyMoreSearch(response: Response<seq<Manga>>)
      modifies this`mangas, this`showAlert, this`myError, this`errorMessage
      ensures match response
        case Fetched(items) =>
          mangas == old(mangas) + items && showAlert == old(showAlert) &&
          myError == old(myError) && errorMessage == old(errorMessage)
        case Failed(_) =>
          mangas == old(mangas) && showAlert && myError == Some(CheckForMoreMangasError) &&
          errorMessage == "Error loading more mangas"
    {
      match response
      case Fetched(items) =>
        mangas := mangas + items;
      case Failed(_) =>
        errorMessage, showAlert, myError := "Error loading more mangas", true, Some(CheckForMoreMangasError);
    }

    /** `checkForMoreMangasAuthor(manga:idAuthor:)`: when the author list has scrolled to its
        end, advances the author page and asks for it. */
    method CheckForMoreMangasAuthor(manga: Manga, idAuthor: string)
      requires Valid()
      modifies this`pageAuthor, this`requests
      ensures Valid()
      ensures if AtEnd(mangasByAuthor, manga) then
          pageAuthor == old(pageAuthor) + 1 &&
          requests == old(requests) + [MangasByAuthor(idAuthor, pageAuthor, 10)]
        else
          pageAuthor == old(pageAuthor) && requests == old(requests)
    {
      if |mangasByAuthor| > 0 && mangasByAuthor[|mangasByAuthor| - 1].id == manga.id {
        pageAuthor := pageAuthor + 1;
        FetchMangasByAuthor(idAuthor);
      }
    }

    /** `fetchMangasByAuthor(idAuthor:)`: asks for the current author page. */
    method FetchMangasByAuthor(idAuthor: string)
      requires Valid()
      modifies this`requests
      ensures Valid()
      ensures requests == old(requests) + [MangasByAuthor(idAuthor, pageAuthor, mangasPerPage)]
    {
      requests := requests + [MangasByAuthor(idAuthor, pageAuthor, mangasPerPage)];
    }

    /** The update after an author call: the titles are appended to `mangasByAuthor`. */
    method ApplyMangasByAuthor(response: Response<seq<Manga>>)
      modifies this`mangasByAuthor, this`showAlert, this`errorMessage
      ensures match response
        case Fetched(items) =>
          mangasByAuthor == old(mangasByAuthor) + items && showAlert == old(showAlert) &&
          errorMessage == old(errorMessage)
        case Failed(_) =>
          mangasByAuthor == old(mangasByAuthor) && showAlert &&
          errorMessage == "Error loading mangas by this author"
    {
      match response
      case Fetched(items) =>
        mangasByAuthor := mangasByAuthor + items;
      case Failed(_) =>
        errorMessage, showAlert := "Error loading mangas by this author", true;
    }

    /** `search(text:)`: asks for the current page of titles containing `text`. */
    method Search(text: string)
      requires Valid()
      modifies this`requests
      ensures Valid()
      ensures requests == old(requests) + [SearchContains(text, page)]
    {
      requests := requests + [SearchContains(text, page)];
    }

    /** The update after a search call: the results replace the list; an empty result
        toggles `successSearch`, a failure clears it. */
    method ApplySearch(response: Response<seq<Manga>>)
      modifies this`mangas, this`successSearch, this`showAlert, this`myError, this`errorMessage
      ensures match response
        case Fetched(items) =>
          mangas == items && successSearch == (if items == [] then !old(successSearch) else old(successSearch)) &&
          showAlert == old(showAlert) && myError == old(myError) && errorMessage == old(errorMessage)
        case Failed(_) =>
          mangas == old(mangas) && !successSearch && showAlert && myError == Some(SearchError) &&
          errorMessage == "Error loading your search"
    {
      match response
      case Fetched(items) =>
        mangas := items;
        if mangas == [] {
          successSearch := !successSearch;
        }
      case Failed(_) =>
        myError, errorMessage, showAlert, successSearch := Some(SearchError), "Error loading your search", true, false;
    }

    /** `onChangeText()`: an empty search text returns to the carousel list, any other text
        starts a search from page 1; both empty the list first. */
    method OnChangeText()
      requires Valid()
      modifies this`successSearch, this`listNeeded, this`mangas, this`isSearched, this`page, this`requests
      ensures Valid()
      ensures successSearch && mangas == [] && page == 1
      ensures isSearched == (searchedText != "") && listNeeded == (searchedText != "")
      ensures requests == old(requests) +
                [if searchedText == "" then AllMangas(randomPageAllMangas, 10)
                 else SearchContains(searchedText, 1)]
    {
      successSearch := true;
      listNeeded := true;
      if searchedText == "" {
        mangas := [];
        isSearched := false;
        page := 1;
        FetchAllMangas();
        listNeeded := false;
      } else {
        mangas := [];
        isSearched := true;
        page := 1;
        Search(searchedText);
      }
    }
  }
}
