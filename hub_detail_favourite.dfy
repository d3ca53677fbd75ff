/** MangaHub's `MangaDetailFavouriteViewModel`: the tracking screen of a favourite, where the
    volume being read and the owned volumes are edited and written back to the single
    favourites file. */
module HubDetailFavourite {
  import opened Common
  import opened Records
  import opened Lists
  import opened Storage

  const ReadingError: string := "Error persisting your reading volume"
  const VolumesError: string := "Error persisting your volumes"

  class MangaDetailFavouriteViewModel {
    var manga: Manga
    var savedFavouriteMangas: seq<Manga>
    var reading: int
    var volumes: seq<int>
    var errorMessage: string
    var showAlert: bool
    const interactor: HubStore

    /** `init(interactor:manga:)`: shows the stored progress. */
    constructor (interactor: HubStore, manga: Manga)
      ensures this.interactor == interactor && this.manga == manga
      ensures reading == manga.readingVolume && volumes == manga.boughtVolumes
      ensures savedFavouriteMangas == [] && errorMessage == "" && !showAlert
    {
      this.interactor := interactor;
      this.manga := manga;
      savedFavouriteMangas := [];
      reading := manga.readingVolume;
      volumes := manga.boughtVolumes;
      errorMessage, showAlert := "", false;
    }

    /** `persistReadingVolume()`: stores the volume being read into the title and writes the
        title back over the first favourite with its id. Any failure shows one message; a
        failed load happens before anything changes. */
    method PersistReadingVolume()
      modifies this`savedFavouriteMangas, this`manga, this`errorMessage, this`showAlert, interactor`file
      ensures var f0 := old(interactor.Read());
        if f0.Failure? then
          && manga == old(manga) && savedFavouriteMangas == old(savedFavouriteMangas)
          && interactor.file == old(interactor.file)
          && errorMessage == ReadingError && showAlert
        else
          && manga == old(manga).(readingVolume := reading)
          && savedFavouriteMangas == ReplaceFirstWithId(f0.value, manga)
          && interactor.file == (if interactor.unwritable then old(interactor.file) else Some(savedFavouriteMangas))
          && errorMessage == (if interactor.unwritable then ReadingError else old(errorMessage))
          && showAlert == (old(showAlert) || interactor.unwritable)
    {
      var loaded := interactor.Load();
      if loaded.Failure? {
        errorMessage, showAlert := ReadingError, true;
        return;
      }
      savedFavouriteMangas := loaded.value;
      manga := manga.(readingVolume := reading);
      savedFavouriteMangas := ReplaceFirstWithId(savedFavouriteMangas, manga);
      var saved := interactor.Save(savedFavouriteMangas);
      if !saved {
        errorMessage, showAlert := ReadingError, true;
      }
    }

    /** `persistBoughtVolumes(volume:)`: toggles ownership of `volume`, stores the owned
        volumes into the title and writes the title back. */
    method PersistBoughtVolumes(volume: int)
      modifies this`savedFavouriteMangas, this`manga, this`volumes, this`errorMessage, this`showAlert
      modifies interactor`file
      ensures var f0 := old(interactor.Read());
        if f0.Failure? then
          && manga == old(manga) && volumes == old(volumes)
          && savedFavouriteMangas == old(savedFavouriteMangas)
          && interactor.file == old(interactor.file)
          && errorMessage == VolumesError && showAlert
        else
          && volumes == ToggleVolume(old(volumes), volume)
          && manga == old(manga).(boughtVolumes := volumes)
          && savedFavouriteMangas == ReplaceFirstWithId(f0.value, manga)
          && interactor.file == (if interactor.unwritable then old(interactor.file) else Some(savedFavouriteMangas))
          && errorMessage == (if interactor.unwritable then VolumesError else old(errorMessage))
          && showAlert == (old(showAlert) || interactor.unwritable)
    {
      var loaded := interactor.Load();
      if loaded.Failure? {
        errorMessage, showAlert := VolumesError, true;
        return;
      }
      savedFavouriteMangas := loaded.value;
      if volume in volumes {
        volumes := RemoveAll(volumes, volume);
      } else {
        volumes := volumes + [volume];
      }
      manga := manga.(boughtVolumes := volumes);
      savedFavouriteMangas := ReplaceFirstWithId(savedFavouriteMangas, manga);
      var saved := interactor.Save(savedFavouriteMangas);
      if !saved {
        errorMessage, showAlert := VolumesError, true;
      }
    }
  }
}
