/** MangaTracker's `MyCollectionViewModel`: a second view of the stored collection, with its
    own title query and delete-by-position. */
module MyCollection {
  import opened Common
  import opened Records
  import opened Lists
  import opened Storage

  class MyCollectionViewModel {
    var loadedFavouriteMangas: seq<Manga>
    var containsFavourites: bool
    var searchFavManga: string
    var errorMessage: string
    var showAlert: bool
    const interactor: LocalStore

    /** `init(interactor:)`. */
    constructor (interactor: LocalStore)
      ensures this.interactor == interactor
      ensures loadedFavouriteMangas == [] && !containsFavourites && searchFavManga == ""
      ensures errorMessage == "" && !showAlert
    {
      this.interactor := interactor;
      loadedFavouriteMangas, containsFavourites, searchFavManga := [], false, "";
      errorMessage, showAlert := "", false;
    }

    /** `LoadMyCollectionFromJSON()`: replaces the list by the stored collection; a failed
        read leaves it and raises the alert. */
    method LoadMyCollectionFromJson()
      modifies this`loadedFavouriteMangas, this`errorMessage, this`showAlert
      ensures interactor.CollectionRead().Ok? ==>
                loadedFavouriteMangas == interactor.Collection() &&
                errorMessage == old(errorMessage) && showAlert == old(showAlert)
      ensures interactor.CollectionRead().Failure? ==>
                loadedFavouriteMangas == old(loadedFavouriteMangas) && errorMessage == UnknownError && showAlert
    {
      ReadSlotContents(interactor.collectionFile, interactor.collectionUnreadable);
      var loaded := interactor.Load();
      if loaded.Ok? {
        loadedFavouriteMangas := loaded.value;
      } else {
        errorMessage, showAlert := UnknownError, true;
      }
    }

    /** `deleteMangas(indexSet:)`: removes the entries at the given positions, then saves
        the whole collection; the removal stays in memory when the save fails. */
    method DeleteMangas(offsets: set<int>)
      requires forall o :: o in offsets ==> 0 <= o < |loadedFavouriteMangas|
      modifies this`loadedFavouriteMangas, this`errorMessage, this`showAlert, interactor`collectionFile
      ensures loadedFavouriteMangas == RemoveOffsets(old(loadedFavouriteMangas), offsets)
      ensures |loadedFavouriteMangas| == |old(loadedFavouriteMangas)| - |offsets|
      ensures interactor.collectionFile ==
                if interactor.collectionUnwritable then old(interactor.collectionFile)
                else Some(loadedFavouriteMangas)
      ensures errorMessage == if interactor.collectionUnwritable then UnknownError else old(errorMessage)
      ensures showAlert == (old(showAlert) || interactor.collectionUnwritable)
    {
      RemoveOffsetsCount(loadedFavouriteMangas, offsets);
      loadedFavouriteMangas := RemoveOffsets(loadedFavouriteMangas, offsets);
      var saved := interactor.Save(loadedFavouriteMangas);
      if !saved {
        errorMessage, showAlert := UnknownError, true;
      }
    }

    /** `filteredMangas`: the whole collection for an empty query, otherwise exactly the
        entries whose title matches, in their original order. */
    function FilteredMangas(): (r: seq<Manga>)
      reads this
      ensures searchFavManga == "" ==> r == loadedFavouriteMangas
      ensures searchFavManga != "" ==>
                forall m :: m in r <==> m in loadedFavouriteMangas && TitleMatches(m, searchFavManga)
      ensures IsSubsequence(r, loadedFavouriteMangas)
    {
      SearchFilterMeaning(loadedFavouriteMangas, searchFavManga);
      SearchFilter(loadedFavouriteMangas, searchFavManga)
    }
  }
}
