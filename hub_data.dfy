/** MangaHub's `MangaDataViewModel`: the detail screen of a catalogue title, which saves the
    title as a favourite and disables the button once it is one. */
module HubData {
  import opened Common
  import opened Records
  import opened Lists
  import opened Storage

  datatype DetailError = SaveFavourite | CheckFavourite

  /** `detailErrors.errorDescription`. */
  function ErrorDescription(e: DetailError): string
  {
    match e
    case SaveFavourite => "Error saving manga"
    case CheckFavourite => "Error loading favourites"
  }

  class MangaDataViewModel {
    var manga: Manga
    var savedFavouriteMangas: seq<Manga>
    var isDisable: bool
    var errorMessage: string
    var showAlert: bool
    var myError: Option<DetailError>
    const interactor: HubStore

    /** `init(interactor:manga:)`: remembers the title and tries to load the favourites,
        ignoring a failure (`try?`). */
    constructor (interactor: HubStore, manga: Manga)
      ensures this.interactor == interactor && this.manga == manga
      ensures savedFavouriteMangas == (if interactor.Read().Ok? then interactor.Read().value else [])
      ensures !isDisable && errorMessage == "" && !showAlert && myError.None?
    {
      var loaded := interactor.Load();
      this.interactor := interactor;
      this.manga := manga;
      savedFavouriteMangas := if loaded.Ok? then loaded.value else [];
      isDisable, errorMessage, showAlert, myError := false, "", false, None;
    }

    /** `saveFavourite()`: loads the favourites, appends the title unless its id is already
        there, and rewrites the whole list; existing entries keep their order. A failed load
        or save raises the alert with `.saveFavourite`. */
    method SaveFavouriteManga()
      modifies this`savedFavouriteMangas, this`showAlert, this`myError, interactor`file
      ensures var f0 := old(interactor.Read());
        var failed := f0.Failure? || interactor.unwritable;
        && savedFavouriteMangas == (if f0.Ok? then AppendIfAbsent(f0.value, manga) else old(savedFavouriteMangas))
        && interactor.file == (if failed then old(interactor.file) else Some(savedFavouriteMangas))
        && showAlert == (old(showAlert) || failed)
        && myError == (if failed then Some(SaveFavourite) else old(myError))
      ensures !interactor.unreadable && !interactor.unwritable ==>
                HasId(interactor.Contents(), manga.id) &&
                interactor.Contents()[..|old(interactor.Contents())|] == old(interactor.Contents())
    {
      ReadSlotContents(interactor.file, interactor.unreadable);
      var loaded := interactor.Load();
      if loaded.Failure? {
        showAlert, myError := true, Some(SaveFavourite);
        return;
      }
      savedFavouriteMangas := loaded.value;
      if !HasId(savedFavouriteMangas, manga.id) {
        savedFavouriteMangas := savedFavouriteMangas + [manga];
      }
      var saved := interactor.Save(savedFavouriteMangas);
      if !saved {
        showAlert, myError := true, Some(SaveFavourite);
      }
    }

    /** `checkFavourite()`: disables the button when the favourites hold the title; never
        enables it again. */
    method CheckFavouriteManga()
      modifies this`savedFavouriteMangas, this`isDisable, this`showAlert, this`myError
      ensures var f := interactor.Read();
        && savedFavouriteMangas == (if f.Ok? then f.value else old(savedFavouriteMangas))
        && isDisable == (old(isDisable) || (f.Ok? && HasId(f.value, manga.id)))
        && showAlert == (old(showAlert) || f.Failure?)
        && myError == (if f.Failure? then Some(CheckFavourite) else old(myError))
    {
      var loaded := interactor.Load();
      if loaded.Failure? {
        showAlert, myError := true, Some(CheckFavourite);
      } else {
        savedFavouriteMangas := loaded.value;
        if HasId(savedFavouriteMangas, manga.id) {
          isDisable := true;
        }
      }
    }
  }
}
