/** MangaTracker's `MyCollectionDetailViewModel`: the tracking screen of a title in the
    collection, where the volume being read and the owned volumes are edited and written
    back to the collection file. */
module CollectionDetail {
  import opened Common
  import opened Records
  import opened Lists
  import opened Storage

  datatype MyCollectionDetailError = LoadDataError | SaveDataError | VolumeTrackingError

  /** `MyCollectionDetailError.errorDescription`. */
  function ErrorDescription(e: MyCollectionDetailError): string
  {
    match e
    case LoadDataError => "Failed to load your collection."
    case SaveDataError => "Failed to save your collection."
    case VolumeTrackingError => "Error tracking your manga volumes."
  }

  /** The collection of `m` is complete when it owns as many volumes as the title has;
      a title whose volume count is unknown is never complete. */
  predicate IsComplete(m: Manga)
  {
    m.volumes == Some(|m.boughtVolumes|)
  }

  /** The title after `checkCompletedCollection()`: a complete collection is marked as
      such; nothing ever clears the mark. */
  function CompletionChecked(m: Manga): (r: Manga)
    ensures r.isCompleted <==> m.isCompleted || IsComplete(m)
    ensures SameCatalogue(r, m)
    ensures r.boughtVolumes == m.boughtVolumes && r.readingVolume == m.readingVolume
  {
    if IsComplete(m) then m.(isCompleted := true) else m
  }

  /** Un-owning a volume of a complete collection, then checking again, leaves the title
      marked complete although its collection no longer is. */
  lemma CompletionSurvivesRemoval(m: Manga, v: int)
    requires IsComplete(m) && v in m.boughtVolumes
    ensures var before := CompletionChecked(m);
      var after := CompletionChecked(before.(boughtVolumes := ToggleVolume(before.boughtVolumes, v)));
      after.isCompleted && !IsComplete(after)
  {
    RemoveAllShrinks(m.boughtVolumes, v);
  }

  /** The write-back of a tracked title into a collection without duplicate ids: the entry
      with the title's id becomes the tracked title, every other entry stays. */
  lemma WriteBackEffect(s: seq<Manga>, m: Manga)
    requires UniqueIds(s) && HasId(s, m.id)
    ensures var r := ReplaceFirstWithId(s, m);
      && UniqueIds(r) && HasId(r, m.id)
      && (forall k :: 0 <= k < |r| && r[k].id == m.id ==> r[k] == m)
      && (forall k :: 0 <= k < |r| && r[k].id != m.id ==> r[k] == s[k])
  {
    ReplaceFirstWithIdEffect(s, m);
  }

  /** Tracking a volume and writing the title back flips that volume, and only that volume,
      in the stored entry, and leaves the stored catalogue data as it was. */
  lemma TrackVolumeEffect(s: seq<Manga>, m: Manga, volumes: seq<int>, v: int)
    requires UniqueIds(s) && HasId(s, m.id)
    ensures var t := m.(boughtVolumes := ToggleVolume(volumes, v));
      var r := ReplaceFirstWithId(s, t);
      forall k :: 0 <= k < |r| && r[k].id == m.id ==>
        && ((v in r[k].boughtVolumes) <==> (v !in volumes))
        && (forall x :: x != v ==> multiset(r[k].boughtVolumes)[x] == multiset(volumes)[x])
        && SameCatalogue(r[k], m)
  {
    var t := m.(boughtVolumes := ToggleVolume(volumes, v));
    WriteBackEffect(s, t);
    ToggleVolumeFlips(volumes, v);
  }

  class MyCollectionDetailViewModel {
    var manga: Manga
    var savedFavouriteMangas: seq<Manga>
    var reading: int
    var volumes: seq<int>
    var errorMessage: string
    var showAlert: bool
    var collectionCompleted: bool
    const interactor: LocalStore

    /** `init(interactor:manga:)`: shows the stored progress, then checks completion. */
    constructor (interactor: LocalStore, manga: Manga)
      ensures this.interactor == interactor
      ensures reading == manga.readingVolume && volumes == manga.boughtVolumes
      ensures this.manga == CompletionChecked(manga)
      ensures collectionCompleted == IsComplete(manga)
      ensures savedFavouriteMangas == [] && errorMessage == "" && !showAlert
    {
      this.interactor := interactor;
      this.manga := manga;
      savedFavouriteMangas := [];
      reading := manga.readingVolume;
      volumes := manga.boughtVolumes;
      errorMessage, showAlert, collectionCompleted := "", false, false;
      new;
      CheckCompletedCollection();
    }

    /** `checkCompletedCollection()`. */
    method CheckCompletedCollection()
      modifies this`manga, this`collectionCompleted
      ensures collectionCompleted == IsComplete(old(manga))
      ensures manga == CompletionChecked(old(manga))
    {
      if manga.volumes == Some(|manga.boughtVolumes|) {
        manga := manga.(isCompleted := true);
        collectionCompleted := true;
      } else {
        collectionCompleted := false;
      }
    }

    /** `persistReadingVolume()`: stores the volume being read into the title and writes the
        title back over the first collection entry with its id. */
    method PersistReadingVolume()
      modifies this`savedFavouriteMangas, this`manga, this`errorMessage, this`showAlert
      modifies interactor`collectionFile
      ensures var c0 := old(interactor.CollectionRead());
        if c0.Failure? then
          && manga == old(manga) && savedFavouriteMangas == old(savedFavouriteMangas)
          && interactor.collectionFile == old(interactor.collectionFile)
          && errorMessage == ErrorDescription(LoadDataError) && showAlert
        else
          && manga == old(manga).(readingVolume := reading)
          && savedFavouriteMangas == ReplaceFirstWithId(c0.value, manga)
          && interactor.collectionFile ==
               (if interactor.collectionUnwritable then old(interactor.collectionFile)
                else Some(savedFavouriteMangas))
          && errorMessage ==
               (if interactor.collectionUnwritable then ErrorDescription(SaveDataError)
                else old(errorMessage))
          && showAlert == (old(showAlert) || interactor.collectionUnwritable)
    {
      var loaded := interactor.Load();
      if loaded.Failure? {
        errorMessage, showAlert := ErrorDescription(LoadDataError), true;
        return;
      }
      savedFavouriteMangas := loaded.value;
      manga := manga.(readingVolume := reading);
      savedFavouriteMangas := ReplaceFirstWithId(savedFavouriteMangas, manga);
      var saved := interactor.Save(savedFavouriteMangas);
      if !saved {
        errorMessage, showAlert := ErrorDescription(SaveDataError), true;
      }
    }

    /** `persistBoughtVolumes(volume:)`: toggles ownership of `volume`, stores the owned
        volumes into the title and writes the title back. */
    method PersistBoughtVolumes(volume: int)
      modifies this`savedFavouriteMangas, this`manga, this`volumes, this`errorMessage, this`showAlert
      modifies interactor`collectionFile
      ensures var c0 := old(interactor.CollectionRead());
        if c0.Failure? then
          && manga == old(manga) && volumes == old(volumes)
          && savedFavouriteMangas == old(savedFavouriteMangas)
          && interactor.collectionFile == old(interactor.collectionFile)
          && errorMessage == ErrorDescription(LoadDataError) && showAlert
        else
          && volumes == ToggleVolume(old(volumes), volume)
          && manga == old(manga).(boughtVolumes := volumes)
          && savedFavouriteMangas == ReplaceFirstWithId(c0.value, manga)
          && interactor.collectionFile ==
               (if interactor.collectionUnwritable then old(interactor.collectionFile)
                else Some(savedFavouriteMangas))
          && errorMessage ==
               (if interactor.collectionUnwritable then ErrorDescription(VolumeTrackingError)
                else old(errorMessage))
          && showAlert == (old(showAlert) || interactor.collectionUnwritable)
    {
      var loaded := interactor.Load();
      if loaded.Failure? {
        errorMessage, showAlert := ErrorDescription(LoadDataError), true;
        return;
      }
      savedFavouriteMangas := loaded.value;
      if volume in volumes {
        volumes := RemoveAll(volumes, volume);
      } else {
        volumes := volumes + [volume];
      }
      manga := manga.(boughtVolumes := volumes);
      savedFavouriteMangas := ReplaceFirstWithId(savedFavouriteMangas, manga);
      var saved := interactor.Save(savedFavouriteMangas);
      if !saved {
        errorMessage, showAlert := ErrorDescription(VolumeTrackingError), true;
      }
    }

    /** `formatMangaDetails()`. */
    function FormatMangaDetails(format: Date -> string): string
      reads this
    {
      MangaDetails(manga, format)
    }
  }
}
