/** MangaTracker's `MangaListFavouriteViewModel`: the favourites list over the single-file
    store of the MangaHub app, with a title query and delete-by-position. */
module FavouriteList {
  import opened Common
  import opened Records
  import opened Lists
  import opened Storage

  class MangaListFavouriteViewModel {
    var loadedFavouriteMangas: seq<Manga>
    var containsFavourites: bool
    var searchFavManga: string
    var errorMessage: string
    var showAlert: bool
    const interactor: HubStore

    /** `init(interactor:)`. */
    constructor (interactor: HubStore)
      ensures this.interactor == interactor
      ensures loadedFavouriteMangas == [] && !containsFavourites && searchFavManga == ""
      ensures errorMessage == "" && !showAlert
    {
      this.interactor := interactor;
      loadedFavouriteMangas, containsFavourites, searchFavManga := [], false, "";
      errorMessage, showAlert := "", false;
    }

    /** `showFavourites()`: replaces the list by the stored one; a failed read leaves it and
        raises the alert. */
    method ShowFavourites()
      modifies this`loadedFavouriteMangas, this`errorMessage, this`showAlert
      ensures interactor.Read().Ok? ==>
                loadedFavouriteMangas == interactor.Contents() &&
                errorMessage == old(errorMessage) && showAlert == old(showAlert)
      ensures interactor.Read().Failure? ==>
                loadedFavouriteMangas == old(loadedFavouriteMangas) && errorMessage == UnknownError && showAlert
    {
      ReadSlotContents(interactor.file, interactor.unreadable);
      var loaded := interactor.Load();
      if loaded.Ok? {
        loadedFavouriteMangas := loaded.value;
      } else {
        errorMessage, showAlert := UnknownError, true;
      }
    }

    /** `deleteMangas(indexSet:)`: removes the entries at the given positions, then saves
        the whole list; the removal stays in memory when the save fails. */
    method DeleteMangas(offsets: set<int>)
      requires forall o :: o in offsets ==> 0 <= o < |loadedFavouriteMangas|
      modifies this`loadedFavouriteMangas, this`errorMessage, this`showAlert, interactor`file
      ensures loadedFavouriteMangas == RemoveOffsets(old(loadedFavouriteMangas), offsets)
      ensures |loadedFavouriteMangas| == |old(loadedFavouriteMangas)| - |offsets|
      ensures interactor.file ==
                if interactor.unwritable then old(interactor.file) else Some(loadedFavouriteMangas)
      ensures errorMessage == if interactor.unwritable then UnknownError else old(errorMessage)
      ensures showAlert == (old(showAlert) || interactor.unwritable)
    {
      RemoveOffsetsCount(loadedFavouriteMangas, offsets);
      loadedFavouriteMangas := RemoveOffsets(loadedFavouriteMangas, offsets);
      var saved := interactor.Save(loadedFavouriteMangas);
      if !saved {
        errorMessage, showAlert := UnknownError, true;
      }
    }

    /** `filteredMangas`: the whole list for an empty query, otherwise exactly the entries
        whose title matches, in their original order. */
    function FilteredMangas(): (r: seq<Manga>)
      reads this
      ensures searchFavManga == "" ==> r == loadedFavouriteMangas
      ensures searchFavManga != "" ==>
                forall m :: m in r <==> m in loadedFavouriteMangas && TitleMatches(m, searchFavManga)
      ensures IsSubsequence(r, loadedFavouriteMangas)
    {
      SearchFilterMeaning(loadedFavouriteMangas, searchFavManga);
      SearchFilter(loadedFavouriteMangas, searchFavManga)
    }
  }
}
