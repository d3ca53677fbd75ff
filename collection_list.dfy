/** MangaTracker's `MyCollectionListViewModel`: the collection screen, which shows the
    stored collection filtered by a title query and deletes entries by position. */
module CollectionList {
  import opened Common
  import opened Records
  import opened Lists
  import opened Storage

  class MyCollectionListViewModel {
    var loadedMyCollectionMangas: seq<Manga>
    var containsFavourites: bool
    var searchQueryCollection: string
    var errorMessage: string
    var successSearch: bool
    var searchedText: string
    var showAlert: bool
    var isSearched: bool
    var page: int
    const interactor: LocalStore

    /** `init(interactor:)`. */
    constructor (interactor: LocalStore)
      ensures this.interactor == interactor
      ensures loadedMyCollectionMangas == [] && !containsFavourites && searchQueryCollection == ""
      ensures errorMessage == "" && successSearch && searchedText == "" && !showAlert
      ensures !isSearched && page == 1
    {
      this.interactor := interactor;
      loadedMyCollectionMangas, containsFavourites, searchQueryCollection := [], false, "";
      errorMessage, successSearch, searchedText, showAlert := "", true, "", false;
      isSearched, page := false, 1;
    }

    /** `LoadMyCollectionFromJSON()`: replaces the list by the stored collection; a failed
        read leaves it and raises the alert. */
    method LoadMyCollectionFromJson()
      modifies this`loadedMyCollectionMangas, this`errorMessage, this`showAlert
      ensures interactor.CollectionRead().Ok? ==>
                loadedMyCollectionMangas == interactor.Collection() &&
                errorMessage == old(errorMessage) && showAlert == old(showAlert)
      ensures interactor.CollectionRead().Failure? ==>
                loadedMyCollectionMangas == old(loadedMyCollectionMangas) &&
                errorMessage == "Error loading your collection from disk" && showAlert
    {
      ReadSlotContents(interactor.collectionFile, interactor.collectionUnreadable);
      var loaded := interactor.Load();
      if loaded.Ok? {
        loadedMyCollectionMangas := loaded.value;
      } else {
        showAlert, errorMessage := true, "Error loading your collection from disk";
      }
    }

    /** `deleteMangas(indexSet:)`: removes the entries at the given positions, keeping the
        order of the rest, then saves the whole collection; the removal stays in memory when
        the save fails. Every position must be in the list. */
    method DeleteMangas(offsets: set<int>)
      requires forall o :: o in offsets ==> 0 <= o < |loadedMyCollectionMangas|
      modifies this`loadedMyCollectionMangas, this`errorMessage, this`showAlert, interactor`collectionFile
      ensures loadedMyCollectionMangas == RemoveOffsets(old(loadedMyCollectionMangas), offsets)
      ensures |loadedMyCollectionMangas| == |old(loadedMyCollectionMangas)| - |offsets|
      ensures interactor.collectionFile ==
                if interactor.collectionUnwritable then old(interactor.collectionFile)
                else Some(loadedMyCollectionMangas)
      ensures errorMessage == if interactor.collectionUnwritable then UnknownError else old(errorMessage)
      ensures showAlert == (old(showAlert) || interactor.collectionUnwritable)
    {
      RemoveOffsetsCount(loadedMyCollectionMangas, offsets);
      loadedMyCollectionMangas := RemoveOffsets(loadedMyCollectionMangas, offsets);
      var saved := interactor.Save(loadedMyCollectionMangas);
      if !saved {
        errorMessage, showAlert := UnknownError, true;
      }
    }

    /** `filteredMangas`: the whole collection for an empty query, otherwise exactly the
        entries whose title matches, in their original order. */
    function FilteredMangas(): (r: seq<Manga>)
      reads this
      ensures searchQueryCollection == "" ==> r == loadedMyCollectionMangas
      ensures searchQueryCollection != "" ==>
                forall m :: m in r <==> m in loadedMyCollectionMangas && TitleMatches(m, searchQueryCollection)
      ensures IsSubsequence(r, loadedMyCollectionMangas)
    {
      SearchFilterMeaning(loadedMyCollectionMangas, searchQueryCollection);
      SearchFilter(loadedMyCollectionMangas, searchQueryCollection)
    }

    /** `search(text:)`: remembers the text; an empty text makes the search a success, a
        text no title matches makes it a failure, and a text some title matches leaves the
        flag as it was. The list itself is not touched. */
    method Search(text: string)
      modifies this`searchedText, this`successSearch
      ensures searchedText == text
      ensures var matches := exists i :: 0 <= i < |loadedMyCollectionMangas| &&
                                        TitleMatches(loadedMyCollectionMangas[i], text);
        successSearch == if text == "" then true else if !matches then false else old(successSearch)
    {
      searchedText := text;
      var filtered := FilterByTitle(loadedMyCollectionMangas, text);
      if filtered == [] {
        successSearch := false;
      } else {
        assert filtered[0] in filtered;
      }
      if searchedText == "" {
        successSearch := true;
      }
    }
  }
}
