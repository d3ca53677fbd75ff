/** MangaTracker's `BucketListViewModel`: the bucket-list screen, which shows the stored
    bucket list filtered by a title query and deletes entries by position. */
module BucketList {
  import opened Common
  import opened Records
  import opened Lists
  import opened Storage

  class BucketListViewModel {
    var loadedBucketMangas: seq<Manga>
    var searchBucketManga: string
    var errorMessage: string
    var successSearch: bool
    var searchedText: string
    var showAlert: bool
    const interactor: LocalStore

    /** `init(interactor:)`. */
    constructor (interactor: LocalStore)
      ensures this.interactor == interactor
      ensures loadedBucketMangas == [] && searchBucketManga == "" && errorMessage == ""
      ensures successSearch && searchedText == "" && !showAlert
    {
      this.interactor := interactor;
      loadedBucketMangas, searchBucketManga, errorMessage := [], "", "";
      successSearch, searchedText, showAlert := true, "", false;
    }

    /** `loadMyBucketFromJSON()`: replaces the list by the stored one; a failed read leaves
        it and raises the alert. */
    method LoadMyBucketFromJson()
      modifies this`loadedBucketMangas, this`errorMessage, this`showAlert
      ensures interactor.BucketRead().Ok? ==>
                loadedBucketMangas == interactor.Bucket() &&
                errorMessage == old(errorMessage) && showAlert == old(showAlert)
      ensures interactor.BucketRead().Failure? ==>
                loadedBucketMangas == old(loadedBucketMangas) && errorMessage == UnknownError && showAlert
    {
      ReadSlotContents(interactor.bucketFile, interactor.bucketUnreadable);
      var loaded := interactor.LoadBucket();
      if loaded.Ok? {
        loadedBucketMangas := loaded.value;
      } else {
        errorMessage, showAlert := UnknownError, true;
      }
    }

    /** `deleteBucketMangas(indexSet:)`: removes the entries at the given positions, keeping
        the order of the rest, then saves the whole list; the removal stays in memory when
        the save fails. Every position must be in the list. */
    method DeleteBucketMangas(offsets: set<int>)
      requires forall o :: o in offsets ==> 0 <= o < |loadedBucketMangas|
      modifies this`loadedBucketMangas, this`errorMessage, this`showAlert, interactor`bucketFile
      ensures loadedBucketMangas == RemoveOffsets(old(loadedBucketMangas), offsets)
      ensures |loadedBucketMangas| == |old(loadedBucketMangas)| - |offsets|
      ensures interactor.bucketFile ==
                if interactor.bucketUnwritable then old(interactor.bucketFile) else Some(loadedBucketMangas)
      ensures errorMessage == if interactor.bucketUnwritable then UnknownError else old(errorMessage)
      ensures showAlert == (old(showAlert) || interactor.bucketUnwritable)
    {
      RemoveOffsetsCount(loadedBucketMangas, offsets);
      loadedBucketMangas := RemoveOffsets(loadedBucketMangas, offsets);
      SaveBucketMangas();
    }

    /** `saveBucketMangas()`: writes the whole list. */
    method SaveBucketMangas()
      modifies this`errorMessage, this`showAlert, interactor`bucketFile
      ensures interactor.bucketFile ==
                if interactor.bucketUnwritable then old(interactor.bucketFile) else Some(loadedBucketMangas)
      ensures errorMessage == if interactor.bucketUnwritable then UnknownError else old(errorMessage)
      ensures showAlert == (old(showAlert) || interactor.bucketUnwritable)
    {
      var saved := interactor.SaveBucket(loadedBucketMangas);
      if !saved {
        errorMessage, showAlert := UnknownError, true;
      }
    }

    /** `filteredBucketMangas`: the whole list for an empty query, otherwise exactly the
        entries whose title matches, in their original order. */
    function FilteredBucketMangas(): (r: seq<Manga>)
      reads this
      ensures searchBucketManga == "" ==> r == loadedBucketMangas
      ensures searchBucketManga != "" ==>
                forall m :: m in r <==> m in loadedBucketMangas && TitleMatches(m, searchBucketManga)
      ensures IsSubsequence(r, loadedBucketMangas)
    {
      SearchFilterMeaning(loadedBucketMangas, searchBucketManga);
      SearchFilter(loadedBucketMangas, searchBucketManga)
    }

    /** `search(text:)`: remembers the text; the search succeeds when the text is empty or
        some title matches it. The list itself is not touched. */
    method Search(text: string)
      modifies this`searchedText, this`successSearch
      ensures searchedText == text
      ensures successSearch <==>
                text == "" || exists i :: 0 <= i < |loadedBucketMangas| && TitleMatches(loadedBucketMangas[i], text)
    {
      searchedText := text;
      var filtered := FilterByTitle(loadedBucketMangas, text);
      successSearch := filtered != [] || searchedText == "";
      if filtered != [] {
        assert filtered[0] in filtered;
      }
    }
  }
}
